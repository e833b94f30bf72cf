// What each handler makes of one client's state, as functions (main/message/usecases.go,
// main/data/usecases.go and the dispatch in main/message/adapters.go). A handler's result is a
// new state and the letters it tries to send. Choices that the program leaves to the runtime (map
// iteration order, random ids) come in from outside.
module Protocol {
  import opened Entity
  import opened Wire
  import opened DeviceStore
  import opened PeerCache
  import opened MessageCache

  datatype Node = Node(host: Id, store: Devices, peers: Peers, cache: Entries, now: int)

  datatype Letter = Letter(peer: Peer, message: Message)

  datatype Datagram = Datagram(from: Address, to: Address, bytes: Bytes)

  // The peers a selection returned, the order in which device ids were listed, and the random
  // ids drawn.
  datatype Choice = Choice(picked: seq<Peer>, order: seq<Id>, ids: seq<Id>)

  datatype Pick = Pick(message: Id, count: Int64)

  // `saved` is the device written to the store, if any. `pick`, `drawn` and `lists` say which
  // choices the handler made.
  datatype Outcome = Outcome(
    node: Node, saved: Option<Device>, letters: seq<Letter>, pick: Option<Pick>, drawn: nat, lists: bool)

  function Quiet(n: Node): Outcome {
    Outcome(n, None, [], None, 0, false)
  }

  function Saved(store: Devices, saved: Option<Device>): Devices {
    if saved.Some? then store[saved.value.id := saved.value] else store
  }

  function Settled(o: Outcome): Node {
    o.node.(store := Saved(o.node.store, o.saved))
  }

  // ---- Decisions ----

  predicate Owns(n: Node, device: Id) {
    device in n.store && n.store[device].owner == n.host
  }

  predicate CanRead(n: Node, device: Id) {
    device in n.store && Readable(n.store[device])
  }

  // A missing device has no version, so any candidate counts as newer.
  predicate IsNewer(n: Node, device: Id, version: Int64) {
    device in n.store ==> n.store[device].version < version
  }

  // ---- Peer selection ----

  const DEFAULT_PEER_COUNT := 5

  function SafePeers(n: Node, message: Id): set<Id> {
    set p | p in n.peers && !KnownFor(n.cache, message, p, n.now)
  }

  function Quota(safe: nat, count: int): nat {
    var wanted := if count <= 0 then DEFAULT_PEER_COUNT else count;
    if safe < wanted then safe else wanted
  }

  predicate ValidPick(n: Node, message: Id, count: int, picked: seq<Peer>) {
    && |picked| == Quota(|SafePeers(n, message)|, count)
    && DistinctIds(picked)
    && (forall i :: 0 <= i < |picked| ==> picked[i].id in SafePeers(n, message) && Listed(n.peers, picked[i]))
  }

  // Asking about every peer sweeps the cache, provided there is a peer to ask about.
  function Selecting(n: Node): Node {
    if n.peers == map[] then n else n.(cache := Sweep(n.cache, n.now))
  }

  // ---- Messages ----

  function SyncMessage(id: Id, host: Id, d: Device): Message {
    Message(id, host, SYNC, EncodeSync(d))
  }

  function PatchMessage(id: Id, host: Id, device: Id, state: Byte): Message {
    Message(id, host, PATCH, EncodePatch(device, state))
  }

  function IdAt(ids: seq<Id>, i: nat): Id {
    if i < |ids| then ids[i] else ZERO_ID
  }

  // One sync per listed device that can be read, each under its own fresh id.
  function Batch(n: Node, order: seq<Id>, ids: seq<Id>): seq<Message> {
    if order == [] then []
    else
      var k := |order| - 1;
      var before := Batch(n, order[..k], ids);
      if CanRead(n, order[k]) then before + [SyncMessage(IdAt(ids, |before|), n.host, n.store[order[k]])] else before
  }

  function ToEach(peers: seq<Peer>, m: Message): (letters: seq<Letter>)
    ensures |letters| == |peers|
  {
    seq(|peers|, i requires 0 <= i < |peers| => Letter(peers[i], m))
  }

  function ToOne(peer: Peer, batch: seq<Message>): (letters: seq<Letter>)
    ensures |letters| == |batch|
  {
    seq(|batch|, i requires 0 <= i < |batch| => Letter(peer, batch[i]))
  }

  function Burst(peers: seq<Peer>, batch: seq<Message>): seq<Letter> {
    if peers == [] then [] else Burst(peers[..|peers| - 1], batch) + ToOne(peers[|peers| - 1], batch)
  }

  // ---- Local steps ----

  function CreateDevice(n: Node, kind: Byte, state: Byte, c: Choice): Outcome {
    var d := Device(IdAt(c.ids, 0), n.host, kind, state, 0);
    Outcome(n, Some(d), [], None, 1, false)
  }

  function Bumped(d: Device, state: Byte): Device {
    d.(state := state, version := Increment(d.version))
  }

  // Not our device: ask for the change. Ours: make it and tell.
  function PatchState(n: Node, device: Id, state: Byte, c: Choice): Outcome {
    if !Owns(n, device) then
      Outcome(Selecting(n), None, ToEach(c.picked, PatchMessage(IdAt(c.ids, 0), n.host, device, state)),
              Some(Pick(ZERO_ID, MIN_INT)), 1, false)
    else if CanRead(n, device) then
      var d := Bumped(n.store[device], state);
      Outcome(Selecting(n), Some(d),
              ToEach(c.picked, SyncMessage(IdAt(c.ids, 0), n.host, d)),
              Some(Pick(ZERO_ID, MIN_INT)), 1, false)
    else Quiet(n)
  }

  function SendHail(n: Node, c: Choice): Outcome {
    var hail := Message(IdAt(c.ids, 0), n.host, HAIL, []);
    var syncs := Batch(n, c.order, if c.ids == [] then [] else c.ids[1..]);
    Outcome(Selecting(n), None, Burst(c.picked, [hail] + syncs), Some(Pick(hail.id, MIN_INT)), 1 + |syncs|, true)
  }

  function SendFarewell(n: Node, c: Choice): Outcome {
    var farewell := Message(IdAt(c.ids, 0), n.host, FAREWELL, []);
    Outcome(Selecting(n), None, ToEach(c.picked, farewell), Some(Pick(farewell.id, MAX_INT)), 1, false)
  }

  function AddPeer(n: Node, peer: Peer): Node {
    n.(peers := n.peers[peer.id := peer])
  }

  // The store is on disk; the peer table and the message cache are not.
  function Restarted(n: Node): Node {
    n.(peers := map[], cache := map[])
  }

  // ---- Handlers of received messages ----

  function SaluteOnHail(n: Node, from: Address, m: Message, c: Choice): Outcome {
    var peer := Peer(m.sender, from);
    var syncs := Batch(n, c.order, c.ids);
    Outcome(AddPeer(n, peer), None, ToOne(peer, syncs), None, |syncs|, true)
  }

  // The owner applies a patch and tells the new state; everybody else passes the patch on.
  function SaveState(n: Node, m: Message, c: Choice): Outcome {
    match DecodePatch(m.data)
    case Ok((device, state)) =>
      if !Owns(n, device) then
        Outcome(Selecting(n), None, ToEach(c.picked, m), Some(Pick(ZERO_ID, MIN_INT)), 0, false)
      else if CanRead(n, device) then
        var d := Bumped(n.store[device], state);
        Outcome(Selecting(n), Some(d),
                ToEach(c.picked, SyncMessage(IdAt(c.ids, 0), n.host, d)),
                Some(Pick(ZERO_ID, MIN_INT)), 1, false)
      else Quiet(n)
    case _ => Quiet(n)
  }

  // A newer copy is saved and passed on; an older or equal one is answered with ours.
  function Consider(n: Node, m: Message, d: Device, c: Choice): Outcome {
    if Owns(n, d.id) then Quiet(n)
    else if IsNewer(n, d.id, d.version) then
      Outcome(Selecting(n), Some(d), ToEach(c.picked, m), Some(Pick(m.id, MIN_INT)), 0, false)
    else if CanRead(n, d.id) then
      var answer := SyncMessage(IdAt(c.ids, 0), n.host, n.store[d.id]);
      Outcome(Selecting(n), None, ToEach(c.picked, answer), Some(Pick(answer.id, MIN_INT)), 1, false)
    else Quiet(n)
  }

  function SaveDevice(n: Node, m: Message, c: Choice): Outcome {
    match DecodeSync(m.data)
    case Ok(d) => Consider(n, m, d, c)
    case _ => Quiet(n)
  }

  function SavePeer(n: Node, from: Address, m: Message): Outcome {
    var known := AddPeer(n, Peer(m.sender, from));
    match DecodePeer(m.data)
    case Ok(p) => Quiet(AddPeer(known, p))
    case _ => Quiet(known)
  }

  function DeletePeer(n: Node, m: Message): Outcome {
    Quiet(n.(peers := n.peers - {m.sender}))
  }

  function Dispatch(n: Node, from: Address, m: Message, c: Choice): Outcome {
    if m.kind == HAIL then SaluteOnHail(n, from, m, c)
    else if m.kind == PATCH then SaveState(n, m, c)
    else if m.kind == SYNC then SaveDevice(n, m, c)
    else if m.kind == PEER then SavePeer(n, from, m)
    else if m.kind == FAREWELL then DeletePeer(n, m)
    else Quiet(n)
  }

  function Swept(n: Node): Node {
    n.(cache := Sweep(n.cache, n.now))
  }

  function Quarantined(n: Node, message: Id, peer: Id): Node {
    n.(cache := Held(n.cache, message, peer, n.now))
  }

  predicate Dispatches(n: Node, bytes: Bytes) {
    HEADER_LENGTH <= |bytes| && !Known(n.cache, Id(bytes[..16]), n.now)
  }

  // The quarantine is consulted after the id and the type byte have been read and before the
  // sender has.
  function Receive(n: Node, from: Address, bytes: Bytes, c: Choice): Outcome {
    if |bytes| < 17 then Quiet(n)
    else if Known(n.cache, Id(bytes[..16]), n.now) || |bytes| < HEADER_LENGTH then Quiet(Swept(n))
    else
      var m := Message(Id(bytes[..16]), Id(bytes[17..33]), bytes[16], bytes[33..]);
      Dispatch(Quarantined(Swept(n), m.id, m.sender), from, m, c)
  }

  // ---- Sending ----

  // Every letter that could be sent puts its message in quarantine for the receiving peer.
  function Posted(n: Node, letters: seq<Letter>, oks: seq<bool>): Node
    requires |letters| == |oks|
  {
    if letters == [] then n
    else
      var k := |letters| - 1;
      var before := Posted(n, letters[..k], oks[..k]);
      if oks[k] then Quarantined(before, letters[k].message.id, letters[k].peer.id) else before
  }

  lemma {:induction false} PostedKeeps(n: Node, letters: seq<Letter>, oks: seq<bool>)
    requires |letters| == |oks|
    ensures Posted(n, letters, oks) == n.(cache := Posted(n, letters, oks).cache)
  {
    if letters != [] {
      PostedKeeps(n, letters[..|letters| - 1], oks[..|letters| - 1]);
    }
  }

  function Datagrams(from: Address, letters: seq<Letter>, oks: seq<bool>): seq<Datagram>
    requires |letters| == |oks|
  {
    if letters == [] then []
    else
      var k := |letters| - 1;
      var before := Datagrams(from, letters[..k], oks[..k]);
      if oks[k] then before + [Datagram(from, letters[k].peer.address, EncodeEnvelope(letters[k].message))] else before
  }

  // ---- What makes a choice legitimate ----

  ghost predicate ListsStore(n: Node, order: seq<Id>) {
    && (forall id :: id in order <==> id in n.store)
    && (forall i, j :: 0 <= i < j < |order| ==> order[i] != order[j])
  }

  ghost predicate Allowed(o: Outcome, c: Choice) {
    && |c.ids| == o.drawn
    && (if o.pick.Some? then ValidPick(o.node, o.pick.value.message, o.pick.value.count, c.picked) else c.picked == [])
    && (if o.lists then ListsStore(o.node, c.order) else c.order == [])
  }
}
