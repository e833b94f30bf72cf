// One client in the peer table under two ids. The quarantine and the peer table know peers by id
// only, so such a client can get one message twice in one step.
module Twins {
  import opened Entity
  import opened Wire
  import opened PeerCache
  import opened MessageCache
  import opened Protocol
  import opened Letters
  import opened Network
  import opened Agreement
  import opened Runs
  import opened Quarantine
  import opened Relay

  // Some message is addressed to this address twice.
  predicate Doubles(letters: seq<Letter>, x: Address) {
    exists i, j :: 0 <= i < j < |letters| && letters[i].message.id == letters[j].message.id &&
                   letters[i].peer.address == x && letters[j].peer.address == x
  }

  // Two of these ids are listed with this address.
  predicate HasTwins(peers: Peers, pool: set<Id>, x: Address) {
    exists p, q :: p in pool && q in pool && p != q && p in peers && q in peers &&
                   peers[p].address == x && peers[q].address == x
  }

  // The peers among which a client picks when it handles a message.
  function HandlingPool(n: Node, m: Message): set<Id> {
    if m.kind == PATCH && DecodePatch(m.data).Ok? then
      var device := DecodePatch(m.data).value.0;
      if Owns(n, device) && !CanRead(n, device) then {} else n.peers.Keys
    else if m.kind == SYNC && DecodeSync(m.data).Ok? then
      var d := DecodeSync(m.data).value;
      if Owns(n, d.id) then {}
      else if IsNewer(n, d.id, d.version) then n.peers.Keys - {m.sender}
      else if CanRead(n, d.id) then n.peers.Keys
      else {}
    else {}
  }

  // The peers among which a client picks in a step. All that matters is its store, its peer table,
  // and the message that it dispatches, if any.
  function Pool(v: World, a: Action): set<Id>
    requires Placed(v, a) && ByNode(a)
  {
    var n := v.nodes[Actor(v, a)];
    match a
    case Patch(_, device, _) => if Owns(n, device) && !CanRead(n, device) then {} else n.peers.Keys
    case Hail(_) => n.peers.Keys
    case Farewell(_) => n.peers.Keys
    case Deliver(_) => if Received(v, a).Some? then HandlingPool(n, Received(v, a).value) else {}
    case _ => {}
  }

  // The input: a client that has another one in its peer table under two ids updates a device of
  // its own. Whatever it picks, the same datagram goes to the same address twice.
  lemma TwinsGetItTwice(n: Node, device: Id, state: Byte, c: Choice, a: Id, b: Id, x: Address, from: Address)
    requires n.cache == map[] && a != b && n.peers == map[a := Peer(a, x), b := Peer(b, x)]
    requires Updates(n, device) && Allowed(PatchState(n, device, state, c), c)
    ensures var letters := PatchState(n, device, state, c).letters;
            && |letters| == 2 && Doubles(letters, x)
            && var sent := Datagrams(from, letters, [true, true]);
            |sent| == 2 && sent[0] == sent[1] && sent[0].to == x
  {
    var letters := PatchState(n, device, state, c).letters;
    assert SafePeers(Selecting(n), ZERO_ID) == {a, b};
    assert |{a, b}| == 2;
    assert Listed(n.peers, c.picked[0]) && Listed(n.peers, c.picked[1]);
    assert letters == [letters[0], letters[1]];
    BothSent(from, n, letters[0], letters[1]);
  }

  lemma BothSent(from: Address, n: Node, k: Letter, l: Letter)
    ensures Datagrams(from, [k, l], [true, true]) ==
            [Datagram(from, k.peer.address, EncodeEnvelope(k.message)),
             Datagram(from, l.peer.address, EncodeEnvelope(l.message))]
  {
    OneLetter(from, n, k, true);
    assert [k, l][..1] == [k] && [true, true][..1] == [true];
  }

  // ---- What a step's letters look like ----

  predicate GoesToAll(o: Outcome, c: Choice, m: Message) {
    forall p :: p in c.picked ==> Letter(p, m) in o.letters
  }

  // Nothing is picked and there is one addressee at most, or everybody addressed has been picked
  // from the pool.
  ghost predicate Shaped(o: Outcome, c: Choice, pool: set<Id>) {
    if o.pick.None? then
      && pool == {}
      && forall i, j :: 0 <= i < j < |o.letters| ==> o.letters[i].peer == o.letters[j].peer
    else
      && pool == SafePeers(o.node, o.pick.value.message)
      && (forall j :: 0 <= j < |o.letters| ==> o.letters[j].peer in c.picked)
      && exists m :: GoesToAll(o, c, m)
  }

  lemma EachShaped(o: Outcome, c: Choice, pool: set<Id>, m: Message)
    requires o.letters == ToEach(c.picked, m) && o.pick.Some?
    requires pool == SafePeers(o.node, o.pick.value.message)
    ensures Shaped(o, c, pool)
  {
    forall p | p in c.picked
      ensures Letter(p, m) in o.letters
    {
      var k :| 0 <= k < |c.picked| && c.picked[k] == p;
      assert o.letters[k] == Letter(p, m);
    }
    assert GoesToAll(o, c, m);
  }

  lemma HailShaped(n: Node, c: Choice)
    requires KeyedStore(n.store) && DistinctSeq(c.ids) && Allowed(SendHail(n, c), c) && c.ids[0] !in n.cache
    ensures Shaped(SendHail(n, c), c, n.peers.Keys)
  {
    var o := SendHail(n, c);
    var hail := Message(c.ids[0], n.host, HAIL, []);
    var batch := [hail] + Batch(n, c.order, c.ids[1..]);
    HailBatchGood(n, c);
    BurstMeans(c.picked, batch);
    FreshIsSafe(n, c.ids[0]);
    forall p | p in c.picked
      ensures Letter(p, hail) in o.letters
    {
      BurstReaches(c.picked, batch, p, 0);
    }
    assert GoesToAll(o, c, hail);
  }

  lemma PatchShaped(n: Node, device: Id, state: Byte, c: Choice)
    requires ZERO_ID !in n.cache && Allowed(PatchState(n, device, state, c), c)
    ensures Shaped(PatchState(n, device, state, c), c,
                   if Owns(n, device) && !CanRead(n, device) then {} else n.peers.Keys)
  {
    var o := PatchState(n, device, state, c);
    FreshIsSafe(n, ZERO_ID);
    if o.pick.Some? {
      var m := if Owns(n, device) then SyncMessage(IdAt(c.ids, 0), n.host, Bumped(n.store[device], state))
               else PatchMessage(IdAt(c.ids, 0), n.host, device, state);
      EachShaped(o, c, n.peers.Keys, m);
    }
  }

  lemma FarewellShaped(n: Node, c: Choice)
    requires Allowed(SendFarewell(n, c), c) && c.ids[0] !in n.cache
    ensures Shaped(SendFarewell(n, c), c, n.peers.Keys)
  {
    FreshIsSafe(n, c.ids[0]);
    EachShaped(SendFarewell(n, c), c, n.peers.Keys, Message(c.ids[0], n.host, FAREWELL, []));
  }

  lemma SavePatchShaped(n: Node, m: Message, c: Choice)
    requires ZERO_ID !in n.cache && m.id != ZERO_ID && !Known(n.cache, m.id, n.now) && m.kind == PATCH
    requires Allowed(SaveState(Holding(n, m), m, c), c)
    ensures Shaped(SaveState(Holding(n, m), m, c), c, HandlingPool(n, m))
  {
    var held := Holding(n, m);
    var o := SaveState(held, m, c);
    SafeForRelay(n, m);
    if o.pick.Some? {
      var (device, state) := DecodePatch(m.data).value;
      EachShaped(o, c, n.peers.Keys,
                 if Owns(n, device) then SyncMessage(IdAt(c.ids, 0), n.host, Bumped(n.store[device], state)) else m);
    }
  }

  lemma NewerShaped(n: Node, m: Message, c: Choice)
    requires ZERO_ID !in n.cache && m.id != ZERO_ID && !Known(n.cache, m.id, n.now) && RelaysSync(n, m)
    requires Allowed(SaveDevice(Holding(n, m), m, c), c)
    ensures Shaped(SaveDevice(Holding(n, m), m, c), c, HandlingPool(n, m))
  {
    SafeForRelay(n, m);
    EachShaped(SaveDevice(Holding(n, m), m, c), c, HandlingPool(n, m), m);
  }

  lemma StaleShaped(n: Node, m: Message, c: Choice)
    requires m.kind == SYNC && !RelaysSync(n, m)
    requires Allowed(SaveDevice(Holding(n, m), m, c), c) && forall id :: id in c.ids ==> id !in n.cache && id != m.id
    ensures Shaped(SaveDevice(Holding(n, m), m, c), c, HandlingPool(n, m))
  {
    var o := SaveDevice(Holding(n, m), m, c);
    if o.pick.Some? {
      FreshIsSafe(Holding(n, m), c.ids[0]);
      var device := DecodeSync(m.data).value.id;
      EachShaped(o, c, HandlingPool(n, m), SyncMessage(c.ids[0], n.host, n.store[device]));
    }
  }

  lemma DispatchShaped(n: Node, from: Address, m: Message, c: Choice)
    requires ZERO_ID !in n.cache && m.id != ZERO_ID && !Known(n.cache, m.id, n.now)
    requires Allowed(Dispatch(Holding(n, m), from, m, c), c)
    requires forall id :: id in c.ids ==> id !in n.cache && id != m.id
    ensures Shaped(Dispatch(Holding(n, m), from, m, c), c, HandlingPool(n, m))
  {
    if m.kind == PATCH {
      SavePatchShaped(n, m, c);
    } else if RelaysSync(n, m) {
      NewerShaped(n, m, c);
    } else if m.kind == SYNC {
      StaleShaped(n, m, c);
    }
  }

  lemma DeliverShaped(v: World, step: Step)
    requires Inv(v) && LogOk(v) && Enabled(v, step) && step.action.Deliver?
    ensures Shaped(OutcomeOf(v, step), step.choice, Pool(v, step.action))
  {
    var g, c := v.air[step.action.index], step.choice;
    assert DatagramOk(v, g);
    var n, m := v.nodes[g.to], DecodeEnvelope(g.bytes).value;
    ReceiveMeans(n, g.from, g.bytes, m, c);
    if Dispatches(n, g.bytes) {
      Incoming(v, step.action.index);
      DispatchShaped(n, g.from, m, c);
    }
  }

  lemma StepShaped(v: World, step: Step)
    requires Inv(v) && LogOk(v) && Enabled(v, step) && ByNode(step.action)
    ensures Shaped(OutcomeOf(v, step), step.choice, Pool(v, step.action))
  {
    var n, c := v.nodes[Actor(v, step.action)], step.choice;
    assert NodeOk(v.ledger, n) && ZERO_ID !in n.cache;
    match step.action
    case Patch(_, device, state) => PatchShaped(n, device, state, c);
    case Hail(_) => HailShaped(n, c);
    case Farewell(_) => FarewellShaped(n, c);
    case Deliver(_) => DeliverShaped(v, step);
    case _ =>
  }

  // ---- Only twins get a message twice ----

  lemma DoublesNeedTwins(v: World, step: Step, x: Address)
    requires Inv(v) && LogOk(v) && Enabled(v, step) && ByNode(step.action)
    requires Doubles(OutcomeOf(v, step).letters, x)
    ensures HasTwins(v.nodes[Actor(v, step.action)].peers, Pool(v, step.action), x)
  {
    var n, o, c := v.nodes[Actor(v, step.action)], OutcomeOf(v, step), step.choice;
    StepShaped(v, step);
    LetterIds(v, step);
    var i, j :| 0 <= i < j < |o.letters| && o.letters[i].message.id == o.letters[j].message.id &&
                o.letters[i].peer.address == x && o.letters[j].peer.address == x;
    assert o.letters[i].peer.id != o.letters[j].peer.id;
    assert o.letters[i].peer in c.picked && o.letters[j].peer in c.picked;
    PickedFromPool(v, step, o.letters[i].peer);
    PickedFromPool(v, step, o.letters[j].peer);
  }

  lemma PickedFromPool(v: World, step: Step, p: Peer)
    requires Enabled(v, step) && ByNode(step.action) && p in step.choice.picked
    requires Shaped(OutcomeOf(v, step), step.choice, Pool(v, step.action))
    ensures p.id in Pool(v, step.action) && Listed(v.nodes[Actor(v, step.action)].peers, p)
  {
    PeersStay(v, step);
  }

  lemma HandlingPeersStay(n: Node, from: Address, m: Message, c: Choice)
    requires Dispatch(n, from, m, c).pick.Some?
    ensures Dispatch(n, from, m, c).node.peers == n.peers
  {
  }

  lemma PeersStay(v: World, step: Step)
    requires Enabled(v, step) && ByNode(step.action) && OutcomeOf(v, step).pick.Some?
    ensures OutcomeOf(v, step).node.peers == v.nodes[Actor(v, step.action)].peers
  {
    if step.action.Deliver? {
      var g := v.air[step.action.index];
      var n := v.nodes[g.to];
      if Dispatches(n, g.bytes) {
        var m := DecodeEnvelope(g.bytes).value;
        ReceiveMeans(n, g.from, g.bytes, m, step.choice);
        HandlingPeersStay(Holding(n, m), g.from, m, step.choice);
      }
    }
  }

  // ---- Twins can get a message twice ----

  lemma PickTwo(n: Node, message: Id, count: int, p: Id, q: Id) returns (picked: seq<Peer>)
    requires OwnKeys(n.peers) && p in SafePeers(n, message) && q in SafePeers(n, message) && p != q && count != 1
    ensures ValidPick(n, message, count, picked) && n.peers[p] in picked && n.peers[q] in picked
  {
    var safe := SafePeers(n, message);
    assert safe == (safe - {p, q}) + {p, q} && |{p, q}| == 2;
    var others := AnyPick(n.peers, safe - {p, q}, Quota(|safe|, count) - 2);
    picked := others + [n.peers[p]] + [n.peers[q]];
  }

  lemma {:induction false} Listing(ids: set<Id>) returns (order: seq<Id>)
    ensures |order| == |ids| && (forall id :: id in order <==> id in ids)
    ensures forall i, j :: 0 <= i < j < |order| ==> order[i] != order[j]
    decreases |ids|
  {
    if ids == {} {
      order := [];
    } else {
      var id :| id in ids;
      var rest := Listing(ids - {id});
      order := rest + [id];
    }
  }

  lemma {:induction false} BatchLength(n: Node, order: seq<Id>, ids: seq<Id>, ids': seq<Id>)
    ensures |Batch(n, order, ids)| == |Batch(n, order, ids')|
  {
    if order != [] {
      BatchLength(n, order[..|order| - 1], ids, ids');
    }
  }

  lemma HailAllows(n: Node, ids: seq<Id>, p: Id, q: Id) returns (c: Choice)
    requires OwnKeys(n.peers) && p in n.peers && q in n.peers && p != q
    requires |n.store| < |ids| && ids[0] !in n.cache
    ensures Allowed(SendHail(n, c), c) && c.ids <= ids && n.peers[p] in c.picked && n.peers[q] in c.picked
  {
    FreshIsSafe(n, ids[0]);
    var picked := PickTwo(Selecting(n), ids[0], MIN_INT, p, q);
    var order := Listing(n.store.Keys);
    BatchTells(n, order, ids[1..]);
    var k := |Batch(n, order, ids[1..])|;
    assert |n.store.Keys| == |n.store|;
    c := Choice(picked, order, ids[..k + 1]);
    BatchLength(n, order, ids[1..], c.ids[1..]);
  }

  lemma PatchAllows(n: Node, device: Id, state: Byte, id: Id, p: Id, q: Id) returns (c: Choice)
    requires OwnKeys(n.peers) && p in n.peers && q in n.peers && p != q && ZERO_ID !in n.cache
    requires Owns(n, device) ==> CanRead(n, device)
    ensures Allowed(PatchState(n, device, state, c), c) && c.ids <= [id]
    ensures n.peers[p] in c.picked && n.peers[q] in c.picked
  {
    FreshIsSafe(n, ZERO_ID);
    var picked := PickTwo(Selecting(n), ZERO_ID, MIN_INT, p, q);
    c := Choice(picked, [], [id]);
  }

  lemma FarewellAllows(n: Node, id: Id, p: Id, q: Id) returns (c: Choice)
    requires OwnKeys(n.peers) && p in n.peers && q in n.peers && p != q && id !in n.cache
    ensures Allowed(SendFarewell(n, c), c) && c.ids <= [id] && n.peers[p] in c.picked && n.peers[q] in c.picked
  {
    FreshIsSafe(n, id);
    var picked := PickTwo(Selecting(n), id, MAX_INT, p, q);
    c := Choice(picked, [], [id]);
  }

  lemma SavePatchAllows(n: Node, m: Message, id: Id, p: Id, q: Id) returns (c: Choice)
    requires OwnKeys(n.peers) && p in HandlingPool(n, m) && q in HandlingPool(n, m) && p != q && m.kind == PATCH
    requires ZERO_ID !in n.cache && m.id != ZERO_ID && !Known(n.cache, m.id, n.now)
    ensures Allowed(SaveState(Holding(n, m), m, c), c) && c.ids <= [id]
    ensures n.peers[p] in c.picked && n.peers[q] in c.picked
  {
    SafeForRelay(n, m);
    var picked := PickTwo(Selecting(Holding(n, m)), ZERO_ID, MIN_INT, p, q);
    c := Choice(picked, [], if RelaysPatch(n, m) then [] else [id]);
  }

  lemma SaveSyncAllows(n: Node, m: Message, id: Id, p: Id, q: Id) returns (c: Choice)
    requires OwnKeys(n.peers) && p in HandlingPool(n, m) && q in HandlingPool(n, m) && p != q && m.kind == SYNC
    requires ZERO_ID !in n.cache && m.id != ZERO_ID && !Known(n.cache, m.id, n.now) && id !in n.cache && id != m.id
    ensures Allowed(SaveDevice(Holding(n, m), m, c), c) && c.ids <= [id]
    ensures n.peers[p] in c.picked && n.peers[q] in c.picked
  {
    var held := Holding(n, m);
    SafeForRelay(n, m);
    FreshIsSafe(held, id);
    var newer := RelaysSync(n, m);
    var picked := PickTwo(Selecting(held), if newer then m.id else id, MIN_INT, p, q);
    c := Choice(picked, [], if newer then [] else [id]);
  }

  lemma ReceiveAllows(n: Node, from: Address, bytes: Bytes, m: Message, id: Id, p: Id, q: Id) returns (c: Choice)
    requires DecodeEnvelope(bytes) == Ok(m) && Dispatches(n, bytes)
    requires OwnKeys(n.peers) && p in HandlingPool(n, m) && q in HandlingPool(n, m) && p != q
    requires ZERO_ID !in n.cache && m.id != ZERO_ID && !Known(n.cache, m.id, n.now) && id !in n.cache && id != m.id
    ensures Allowed(Receive(n, from, bytes, c), c) && c.ids <= [id]
    ensures n.peers[p] in c.picked && n.peers[q] in c.picked
  {
    if m.kind == PATCH {
      c := SavePatchAllows(n, m, id, p, q);
    } else {
      c := SaveSyncAllows(n, m, id, p, q);
    }
    ReceiveMeans(n, from, bytes, m, c);
  }

  lemma DeliverAllows(v: World, i: nat, id: Id, p: Id, q: Id) returns (c: Choice)
    requires Inv(v) && LogOk(v) && Placed(v, Deliver(i)) && id !in v.used
    requires p in Pool(v, Deliver(i)) && q in Pool(v, Deliver(i)) && p != q
    ensures var g := v.air[i];
            var n := v.nodes[g.to];
            && Allowed(Receive(n, g.from, g.bytes, c), c) && c.ids <= [id]
            && p in n.peers && q in n.peers && n.peers[p] in c.picked && n.peers[q] in c.picked
  {
    var g := v.air[i];
    assert DatagramOk(v, g);
    Incoming(v, i);
    c := ReceiveAllows(v.nodes[g.to], g.from, g.bytes, MessageAt(v, i), id, p, q);
  }

  lemma StepAllows(v: World, a: Action, ids: seq<Id>, p: Id, q: Id) returns (step: Step)
    requires Inv(v) && LogOk(v) && Placed(v, a) && ByNode(a)
    requires FreshIds(v, ids) && |v.nodes[Actor(v, a)].store| < |ids|
    requires p in Pool(v, a) && q in Pool(v, a) && p != q
    ensures Enabled(v, step) && step.action == a
    ensures var peers := v.nodes[Actor(v, a)].peers;
            p in peers && q in peers && peers[p] in step.choice.picked && peers[q] in step.choice.picked
  {
    var n := v.nodes[Actor(v, a)];
    assert NodeOk(v.ledger, n) && ZERO_ID !in n.cache && ids[0] !in n.cache;
    var c;
    match a {
      case Patch(_, device, state) => c := PatchAllows(n, device, state, ids[0], p, q);
      case Hail(_) => c := HailAllows(n, ids, p, q);
      case Farewell(_) => c := FarewellAllows(n, ids[0], p, q);
      case Deliver(i) => c := DeliverAllows(v, i, ids[0], p, q);
    }
    step := Step(a, c, AllSent(OutcomeOf(v, Step(a, c, [])).letters));
  }

  lemma TwoDouble(letters: seq<Letter>, p: Peer, q: Peer, m: Message, x: Address)
    requires Letter(p, m) in letters && Letter(q, m) in letters && p != q && p.address == q.address == x
    ensures Doubles(letters, x)
  {
    var i :| 0 <= i < |letters| && letters[i] == Letter(p, m);
    var j :| 0 <= j < |letters| && letters[j] == Letter(q, m);
    var h, k := if i < j then i else j, if i < j then j else i;
    assert letters[h].message.id == letters[k].message.id;
  }

  lemma TwinsMayDouble(v: World, step: Step, x: Address, p: Id, q: Id)
    requires Inv(v) && LogOk(v) && Enabled(v, step) && ByNode(step.action) && p in Pool(v, step.action) && p != q
    requires var peers := v.nodes[Actor(v, step.action)].peers;
             && p in peers && q in peers && peers[p].address == peers[q].address == x
             && peers[p] in step.choice.picked && peers[q] in step.choice.picked
    ensures Doubles(OutcomeOf(v, step).letters, x)
  {
    var n, o, c := v.nodes[Actor(v, step.action)], OutcomeOf(v, step), step.choice;
    StepShaped(v, step);
    assert NodeOk(v.ledger, n);
    var m :| GoesToAll(o, c, m);
    TwoDouble(o.letters, n.peers[p], n.peers[q], m, x);
  }

  // Some way of taking the step addresses a message twice to this address.
  ghost predicate CanDouble(v: World, a: Action, x: Address) {
    exists step :: Enabled(v, step) && step.action == a && ByNode(a) && Doubles(OutcomeOf(v, step).letters, x)
  }

  // For every kind of step, in every reachable world: a client can address one message twice to one
  // address if and only if two of the peers that it picks from are listed with that address. (The
  // ids are there in case it does: there are new ones to draw.)
  lemma OnlyTwinsGetDuplicates(w: World, steps: seq<Step>, a: Action, x: Address, ids: seq<Id>)
    requires FromScratch(w, steps) && Placed(End(w, steps), a) && ByNode(a)
    requires FreshIds(End(w, steps), ids) && |End(w, steps).nodes[Actor(End(w, steps), a)].store| < |ids|
    ensures var v := End(w, steps);
            CanDouble(v, a, x) <==> HasTwins(v.nodes[Actor(v, a)].peers, Pool(v, a), x)
  {
    var v := End(w, steps);
    HistoryInv(w, steps);
    ScratchLog(w, steps);
    var peers := v.nodes[Actor(v, a)].peers;
    if CanDouble(v, a, x) {
      var step :| Enabled(v, step) && step.action == a && ByNode(a) && Doubles(OutcomeOf(v, step).letters, x);
      DoublesNeedTwins(v, step, x);
    } else if HasTwins(peers, Pool(v, a), x) {
      var p, q :| p in Pool(v, a) && q in Pool(v, a) && p != q && p in peers && q in peers &&
                  peers[p].address == x && peers[q].address == x;
      var step := StepAllows(v, a, ids, p, q);
      TwinsMayDouble(v, step, x, p, q);
    }
  }
}
