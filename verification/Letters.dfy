// What the handlers put into the letters they send.
module Letters {
  import opened Entity
  import opened Wire
  import opened DeviceStore
  import opened PeerCache
  import opened Protocol

  predicate KeyedStore(store: Devices) {
    forall id :: id in store ==> store[id].id == id
  }

  // A message of this client's own making: a fresh id, and a payload that says what the store says.
  predicate Genuine(s: Node, ids: seq<Id>, m: Message) {
    && m.id in ids
    && m.sender == s.host
    && m.kind in {HAIL, PATCH, SYNC, FAREWELL}
    && (m.kind == PATCH ==> DecodePatch(m.data).Ok?)
    && (m.kind == SYNC ==> DecodeSync(m.data).Ok? && Stores(s, DecodeSync(m.data).value))
  }

  predicate Stores(s: Node, d: Device) {
    d.id in s.store && s.store[d.id] == d && Readable(d)
  }

  // No message goes to the same peer twice.
  predicate DistinctLetters(letters: seq<Letter>) {
    forall i, j :: 0 <= i < j < |letters| ==>
      letters[i].message.id != letters[j].message.id || letters[i].peer.id != letters[j].peer.id
  }

  predicate AllGenuine(s: Node, ids: seq<Id>, letters: seq<Letter>) {
    forall i :: 0 <= i < |letters| ==> Genuine(s, ids, letters[i].message)
  }

  predicate AllRelay(m: Message, letters: seq<Letter>) {
    |letters| <= DEFAULT_PEER_COUNT && forall i :: 0 <= i < |letters| ==> letters[i].message == m
  }

  predicate DistinctSeq(ids: seq<Id>) {
    forall i, j :: 0 <= i < j < |ids| ==> ids[i] != ids[j]
  }

  predicate DistinctMessages(batch: seq<Message>) {
    forall i, j :: 0 <= i < j < |batch| ==> batch[i].id != batch[j].id
  }

  lemma SyncGenuine(s: Node, ids: seq<Id>, id: Id, d: Device)
    requires Stores(s, d) && id in ids
    ensures Genuine(s, ids, SyncMessage(id, s.host, d))
  {
    SyncDecodes(d);
  }

  ghost predicate TellsOne(n: Node, order: seq<Id>, id: Id, m: Message) {
    exists device :: device in order && CanRead(n, device) && m == SyncMessage(id, n.host, n.store[device])
  }

  // A batch tells nothing but listed devices, each message under its own drawn id ...
  lemma {:induction false} BatchTells(n: Node, order: seq<Id>, ids: seq<Id>)
    ensures |Batch(n, order, ids)| <= |order|
    ensures forall k :: 0 <= k < |Batch(n, order, ids)| ==> TellsOne(n, order, IdAt(ids, k), Batch(n, order, ids)[k])
  {
    if order == [] {
    } else {
      var last := |order| - 1;
      var before, all := Batch(n, order[..last], ids), Batch(n, order, ids);
      BatchTells(n, order[..last], ids);
      forall k | 0 <= k < |all|
        ensures TellsOne(n, order, IdAt(ids, k), all[k])
      {
        if k < |before| {
          assert TellsOne(n, order[..last], IdAt(ids, k), before[k]);
        } else {
          assert order[last] in order;
        }
      }
    }
  }

  // ... and leaves out none that can be read.
  lemma {:induction false} BatchCovers(n: Node, order: seq<Id>, ids: seq<Id>, device: Id) returns (k: nat)
    requires device in order && CanRead(n, device)
    ensures k < |Batch(n, order, ids)|
    ensures Batch(n, order, ids)[k] == SyncMessage(IdAt(ids, k), n.host, n.store[device])
  {
    var last := |order| - 1;
    if device in order[..last] {
      k := BatchCovers(n, order[..last], ids, device);
    } else {
      k := |Batch(n, order[..last], ids)|;
    }
  }

  lemma BatchGenuine(n: Node, order: seq<Id>, ids: seq<Id>)
    requires KeyedStore(n.store) && DistinctSeq(ids) && |Batch(n, order, ids)| <= |ids|
    ensures DistinctMessages(Batch(n, order, ids))
    ensures forall k :: 0 <= k < |Batch(n, order, ids)| ==> Genuine(n, ids, Batch(n, order, ids)[k])
  {
    var all := Batch(n, order, ids);
    BatchTells(n, order, ids);
    forall k | 0 <= k < |all|
      ensures all[k].id == ids[k] && Genuine(n, ids, all[k])
    {
      assert TellsOne(n, order, ids[k], all[k]);
      var device :| device in order && CanRead(n, device) && all[k] == SyncMessage(ids[k], n.host, n.store[device]);
      SyncGenuine(n, ids, ids[k], n.store[device]);
    }
  }

  lemma ToOneMeans(peer: Peer, batch: seq<Message>)
    requires DistinctMessages(batch)
    ensures DistinctLetters(ToOne(peer, batch))
  {
  }

  lemma {:induction false} BurstMeans(peers: seq<Peer>, batch: seq<Message>)
    requires DistinctIds(peers) && DistinctMessages(batch)
    ensures forall i :: 0 <= i < |Burst(peers, batch)| ==>
              Burst(peers, batch)[i].peer in peers && Burst(peers, batch)[i].message in batch
    ensures DistinctLetters(Burst(peers, batch))
  {
    if peers == [] {
    } else {
      var k := |peers| - 1;
      BurstMeans(peers[..k], batch);
      ToOneMeans(peers[k], batch);
    }
  }

  lemma {:induction false} BurstReaches(peers: seq<Peer>, batch: seq<Message>, p: Peer, k: nat)
    requires p in peers && k < |batch|
    ensures Letter(p, batch[k]) in Burst(peers, batch)
  {
    var last := |peers| - 1;
    if p == peers[last] {
      assert ToOne(p, batch)[k] == Letter(p, batch[k]);
    } else {
      assert p in peers[..last];
      BurstReaches(peers[..last], batch, p, k);
    }
  }

  lemma {:induction false} BurstLength(peers: seq<Peer>, batch: seq<Message>)
    ensures |Burst(peers, batch)| == |peers| * |batch|
  {
    if peers == [] {
    } else {
      BurstLength(peers[..|peers| - 1], batch);
      assert |peers| * |batch| == (|peers| - 1) * |batch| + |batch|;
    }
  }

  function ReadableIn(n: Node, order: seq<Id>): set<Id> {
    set id | id in order && CanRead(n, id)
  }

  lemma ReadableGrows(n: Node, order: seq<Id>, id: Id)
    requires id !in order
    ensures ReadableIn(n, order + [id]) == ReadableIn(n, order) + if CanRead(n, id) then {id} else {}
    ensures |ReadableIn(n, order + [id])| == |ReadableIn(n, order)| + if CanRead(n, id) then 1 else 0
  {
  }

  // A batch has one message per listed device that can be read.
  lemma {:induction false} BatchCount(n: Node, order: seq<Id>, ids: seq<Id>)
    requires DistinctSeq(order)
    ensures |Batch(n, order, ids)| == |ReadableIn(n, order)|
  {
    if order == [] {
    } else {
      var k := |order| - 1;
      BatchCount(n, order[..k], ids);
      ReadableGrows(n, order[..k], order[k]);
      assert order == order[..k] + [order[k]];
    }
  }

  // ---- Picking everybody ----

  function PickedIds(picked: seq<Peer>): set<Id> {
    set p | p in picked :: p.id
  }

  lemma {:induction false} PickedCount(picked: seq<Peer>)
    requires DistinctIds(picked)
    ensures |PickedIds(picked)| == |picked|
  {
    if picked != [] {
      var k := |picked| - 1;
      PickedCount(picked[..k]);
      assert PickedIds(picked) == PickedIds(picked[..k]) + {picked[k].id};
      assert picked[k].id !in PickedIds(picked[..k]);
    }
  }

  lemma {:induction false} SubsetOfSameSize(a: set<Id>, b: set<Id>)
    requires a <= b && |a| == |b|
    ensures a == b
  {
    if a != {} {
      var x :| x in a;
      SubsetOfSameSize(a - {x}, b - {x});
      assert b == (b - {x}) + {x};
    }
  }

  // A pick that wants at least as many peers as are safe leaves none of them out.
  lemma PickTakesAll(n: Node, message: Id, count: int, picked: seq<Peer>, p: Id)
    requires ValidPick(n, message, count, picked) && 0 < count && |SafePeers(n, message)| <= count
    requires p in SafePeers(n, message)
    ensures n.peers[p] in picked
  {
    PickedCount(picked);
    SubsetOfSameSize(PickedIds(picked), SafePeers(n, message));
    assert p in PickedIds(picked);
    var q :| q in picked && q.id == p;
    assert Listed(n.peers, q);
  }

  // A farewell is addressed to every known peer.
  lemma FarewellReachesAll(n: Node, c: Choice, p: Id) returns (j: nat)
    requires Allowed(SendFarewell(n, c), c) && c.ids[0] !in n.cache && |n.peers| <= MAX_INT
    requires p in n.peers
    ensures j < |SendFarewell(n, c).letters|
    ensures SendFarewell(n, c).letters[j] == Letter(n.peers[p], Message(c.ids[0], n.host, FAREWELL, []))
  {
    var s := Selecting(n);
    SafeCount(s, c.ids[0]);
    assert p in SafePeers(s, c.ids[0]);
    PickTakesAll(s, c.ids[0], MAX_INT, c.picked, p);
    j :| 0 <= j < |c.picked| && c.picked[j] == n.peers[p];
  }

  lemma SafeCount(n: Node, message: Id)
    ensures |SafePeers(n, message)| <= |n.peers|
  {
    SubsetSize(SafePeers(n, message), n.peers.Keys);
    assert |n.peers.Keys| == |n.peers|;
  }

  lemma {:induction false} SubsetSize<T>(a: set<T>, b: set<T>)
    requires a <= b
    ensures |a| <= |b|
  {
    if a != {} {
      var x :| x in a;
      SubsetSize(a - {x}, b - {x});
    }
  }

  // ---- Handler by handler ----

  predicate GoodOutcome(o: Outcome, ids: seq<Id>, received: Option<Message>) {
    && DistinctLetters(o.letters)
    && (AllGenuine(Settled(o), ids, o.letters) || (received.Some? && AllRelay(received.value, o.letters)))
  }

  lemma PatchStateGood(n: Node, device: Id, state: Byte, c: Choice)
    requires KeyedStore(n.store) && Allowed(PatchState(n, device, state, c), c)
    ensures GoodOutcome(PatchState(n, device, state, c), c.ids, None)
  {
    var o := PatchState(n, device, state, c);
    if o.pick.Some? {
      PatchDecodes(device, state);
      if Owns(n, device) {
        SyncGenuine(Settled(o), c.ids, c.ids[0], Bumped(n.store[device], state));
      }
    }
  }

  // A message made under some of the drawn ids is made under all of them.
  lemma GenuineTail(s: Node, ids: seq<Id>, batch: seq<Message>)
    requires ids != [] && DistinctSeq(ids)
    requires forall k :: 0 <= k < |batch| ==> Genuine(s, ids[1..], batch[k])
    ensures forall k :: 0 <= k < |batch| ==> Genuine(s, ids, batch[k]) && batch[k].id != ids[0]
  {
  }

  lemma HailBatchGood(n: Node, c: Choice)
    requires KeyedStore(n.store) && DistinctSeq(c.ids)
    requires c.ids != [] && |Batch(n, c.order, c.ids[1..])| <= |c.ids| - 1
    ensures var batch := [Message(c.ids[0], n.host, HAIL, [])] + Batch(n, c.order, c.ids[1..]);
            DistinctMessages(batch) && forall k :: 0 <= k < |batch| ==> Genuine(n, c.ids, batch[k])
  {
    BatchGenuine(n, c.order, c.ids[1..]);
    GenuineTail(n, c.ids, Batch(n, c.order, c.ids[1..]));
  }

  lemma SendHailGood(n: Node, c: Choice)
    requires KeyedStore(n.store) && DistinctSeq(c.ids) && Allowed(SendHail(n, c), c)
    ensures GoodOutcome(SendHail(n, c), c.ids, None)
  {
    HailBatchGood(n, c);
    BurstMeans(c.picked, [Message(c.ids[0], n.host, HAIL, [])] + Batch(n, c.order, c.ids[1..]));
  }

  lemma SaluteGood(n: Node, from: Address, m: Message, c: Choice)
    requires KeyedStore(n.store) && DistinctSeq(c.ids) && Allowed(SaluteOnHail(n, from, m, c), c)
    ensures GoodOutcome(SaluteOnHail(n, from, m, c), c.ids, Some(m))
  {
    BatchGenuine(n, c.order, c.ids);
  }

  lemma SaveStateGood(n: Node, m: Message, c: Choice)
    requires KeyedStore(n.store) && Allowed(SaveState(n, m, c), c)
    ensures GoodOutcome(SaveState(n, m, c), c.ids, Some(m))
  {
    var o := SaveState(n, m, c);
    if o.saved.Some? {
      SyncGenuine(Settled(o), c.ids, c.ids[0], o.saved.value);
    }
  }

  lemma SaveDeviceGood(n: Node, m: Message, c: Choice)
    requires KeyedStore(n.store) && Allowed(SaveDevice(n, m, c), c)
    ensures GoodOutcome(SaveDevice(n, m, c), c.ids, Some(m))
  {
    var o := SaveDevice(n, m, c);
    if o.drawn == 1 {
      var d := n.store[DecodeSync(m.data).value.id];
      SyncGenuine(Settled(o), c.ids, c.ids[0], d);
    }
  }

  lemma DispatchGood(n: Node, from: Address, m: Message, c: Choice)
    requires KeyedStore(n.store) && DistinctSeq(c.ids) && Allowed(Dispatch(n, from, m, c), c)
    ensures GoodOutcome(Dispatch(n, from, m, c), c.ids, Some(m))
  {
    if m.kind == HAIL {
      SaluteGood(n, from, m, c);
    } else if m.kind == PATCH {
      SaveStateGood(n, m, c);
    } else if m.kind == SYNC {
      SaveDeviceGood(n, m, c);
    }
  }
}
