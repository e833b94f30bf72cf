// When sync traffic goes on. Every id comes to rest, but a sync that is not newer is answered under
// a new id, and two clients that know of nobody but each other keep answering each other.
module Rally {
  import opened Entity
  import opened Wire
  import opened DeviceStore
  import opened MessageCache
  import opened Protocol
  import opened Network
  import opened Agreement
  import opened Runs
  import opened Quarantine
  import opened Relay
  import Redelivery

  // ---- When a sync makes a client send ----

  predicate Answerable(n: Node, m: Message, d: Device) {
    && !Owns(n, d.id)
    && if IsNewer(n, d.id, d.version) then n.peers.Keys - {m.sender} != {} else CanRead(n, d.id) && n.peers != map[]
  }

  // A newer sync itself, or else this client's own copy under a new id.
  predicate IsAnswer(n: Node, m: Message, d: Device, ids: seq<Id>, answer: Message) {
    if IsNewer(n, d.id, d.version) then answer == m
    else d.id in n.store && answer.id in ids && answer == SyncMessage(answer.id, n.host, n.store[d.id])
  }

  lemma SyncLetters(n: Node, from: Address, bytes: Bytes, m: Message, d: Device, c: Choice)
    requires DecodeEnvelope(bytes) == Ok(m) && Dispatches(n, bytes) && m.id != ZERO_ID && ZERO_ID !in n.cache
    requires m.kind == SYNC && DecodeSync(m.data) == Ok(d)
    requires Allowed(Receive(n, from, bytes, c), c) && forall id :: id in c.ids ==> id !in n.cache && id != m.id
    ensures var letters := Receive(n, from, bytes, c).letters;
            && (letters != [] <==> Answerable(n, m, d))
            && (forall j :: 0 <= j < |letters| ==> IsAnswer(n, m, d, c.ids, letters[j].message))
  {
    ReceiveMeans(n, from, bytes, m, c);
    SafeForRelay(n, m);
    if !Owns(n, d.id) && !IsNewer(n, d.id, d.version) && CanRead(n, d.id) {
      FreshIsSafe(Holding(n, m), c.ids[0]);
    }
  }

  lemma StepAnswers(v: World, step: Step, d: Device)
    requires Inv(v) && LogOk(v) && Enabled(v, step) && IsDispatch(v, step.action)
    requires var m := Received(v, step.action).value; m.kind == SYNC && DecodeSync(m.data) == Ok(d)
    ensures var n, m, o := v.nodes[Actor(v, step.action)], Received(v, step.action).value, OutcomeOf(v, step);
            && (o.letters != [] <==> Answerable(n, m, d))
            && forall j :: 0 <= j < |o.letters| ==> IsAnswer(n, m, d, step.choice.ids, o.letters[j].message)
  {
    var g, c := v.air[step.action.index], step.choice;
    assert DatagramOk(v, g);
    Incoming(v, step.action.index);
    SyncLetters(v.nodes[g.to], g.from, g.bytes, Received(v, step.action).value, d, c);
  }

  // A dispatched sync makes a client send if and only if the device is not its own and either the
  // sync is newer and there is a peer besides its sender, or it is not, the client can read its own
  // copy, and there is any peer at all. In the second case what goes out has a new id.
  lemma SyncIsAnswered(w: World, steps: seq<Step>, step: Step, d: Device)
    requires FromScratch(w, steps) && Enabled(End(w, steps), step) && IsDispatch(End(w, steps), step.action)
    requires var m := Received(End(w, steps), step.action).value; m.kind == SYNC && DecodeSync(m.data) == Ok(d)
    ensures var v := End(w, steps);
            var n, m := v.nodes[Actor(v, step.action)], Received(v, step.action).value;
            var letters := OutcomeOf(v, step).letters;
            && (letters != [] <==>
                  && !Owns(n, d.id)
                  && if IsNewer(n, d.id, d.version) then n.peers.Keys - {m.sender} != {}
                     else CanRead(n, d.id) && n.peers != map[])
            && (forall j :: 0 <= j < |letters| && !IsNewer(n, d.id, d.version) ==>
                  && letters[j].message.id !in v.used
                  && letters[j].message == SyncMessage(letters[j].message.id, n.host, n.store[d.id]))
  {
    HistoryInv(w, steps);
    ScratchLog(w, steps);
    StepAnswers(End(w, steps), step, d);
  }

  // ---- One datagram at a time ----

  // The only datagram in flight is on its way to this client and carries this message.
  predicate OnItsWay(v: World, to: Address, m: Message) {
    |v.air| == 1 && v.air[0].to == to && DecodeEnvelope(v.air[0].bytes) == Ok(m)
  }

  // The client's state after a step of one letter, up to its cache.
  predicate LetterWent(v: World, v': World, at: Address, n': Node, used: set<Id>) {
    && at in v.nodes && v'.nodes.Keys == v.nodes.Keys
    && (forall a :: a in v.nodes && a != at ==> v'.nodes[a] == v.nodes[a])
    && v'.nodes[at] == n'.(cache := v'.nodes[at].cache)
    && v'.used == v.used + used
  }

  lemma ReceiveKeys(n: Node, from: Address, bytes: Bytes, m: Message, c: Choice)
    requires DecodeEnvelope(bytes) == Ok(m)
    ensures Settled(Receive(n, from, bytes, c)).cache.Keys <= n.cache.Keys + {m.id}
  {
    ReceiveMeans(n, from, bytes, m, c);
    DispatchCache(Holding(n, m), from, m, c);
  }

  lemma PostedKey(s: Node, l: Letter, ok: bool)
    ensures Posted(s, [l], [ok]) == s.(cache := Posted(s, [l], [ok]).cache)
    ensures Posted(s, [l], [ok]).cache.Keys <= s.cache.Keys + {l.message.id}
  {
    OneLetter(l.peer.address, s, l, ok);
  }

  // The client handles the only datagram in flight and tries to send one letter.
  lemma Handling(v: World, at: Address, m: Message, c: Choice, l: Letter, ok: bool) returns (run: seq<Step>, v': World)
    requires OnItsWay(v, at, m) && at in v.nodes && m.kind == SYNC && FreshIds(v, c.ids)
    requires var o := Receive(v.nodes[at], v.air[0].from, v.air[0].bytes, c); Allowed(o, c) && o.letters == [l]
    ensures Run(v, run) && End(v, run) == v' && |run| == 1 && run[0].action == Deliver(0)
    ensures forall id :: UpdateCount(v, run, id) == 0
    ensures LetterWent(v, v', at, Settled(Receive(v.nodes[at], v.air[0].from, v.air[0].bytes, c)), IdSet(c.ids))
    ensures if ok then OnItsWay(v', l.peer.address, l.message) else v'.air == []
    ensures v'.nodes[at].cache.Keys <= v.nodes[at].cache.Keys + {m.id, l.message.id}
  {
    var g, s := v.air[0], Step(Deliver(0), c, [ok]);
    OneLetter(at, Settled(OutcomeOf(v, s)), l, ok);
    EnvelopeDecodes(l.message);
    ReceiveKeys(v.nodes[at], g.from, g.bytes, m, c);
    PostedKey(Settled(OutcomeOf(v, s)), l, ok);
    run, v' := [s], Do(v, s);
    RunOfOne(v, s);
  }

  lemma StayUsed(v: World, v': World, at: Address, n': Node, used: set<Id>, more: set<Id>)
    requires CachesUsed(v) && LetterWent(v, v', at, n', used)
    requires more <= v'.used - {ZERO_ID} && v'.nodes[at].cache.Keys <= v.nodes[at].cache.Keys + more
    ensures CachesUsed(v')
  {
    forall a, id | a in v'.nodes && id in v'.nodes[a].cache
      ensures id in v'.used && id != ZERO_ID
    {
      assert id in v'.nodes[a].cache.Keys;
    }
  }

  // ---- The rally ----

  predicate HoldsForeign(n: Node, d: Device) {
    d.id in n.store && n.store[d.id] == d && d.owner != n.host && Readable(d)
  }

  predicate OnlyPeer(n: Node, peer: Peer) {
    n.peers == map[peer.id := peer]
  }

  // Two clients that are each other's only peer both hold a device of somebody else's, and a sync
  // of it is on its way from one to the other.
  ghost predicate Volley(v: World, here: Address, there: Address, m: Message, d: Device) {
    && here in v.nodes && there in v.nodes && here != there
    && OnlyPeer(v.nodes[here], Peer(v.nodes[there].host, there))
    && OnlyPeer(v.nodes[there], Peer(v.nodes[here].host, here))
    && HoldsForeign(v.nodes[here], d) && HoldsForeign(v.nodes[there], d)
    && OnItsWay(v, there, m) && m.kind == SYNC && DecodeSync(m.data) == Ok(d)
    && CachesUsed(v) && ZERO_ID in v.used
    && m.id in v.used && m.id != ZERO_ID && m.id !in v.nodes[there].cache
  }

  lemma Answers(n: Node, from: Address, bytes: Bytes, m: Message, d: Device, peer: Peer, id: Id)
    requires DecodeEnvelope(bytes) == Ok(m) && m.kind == SYNC && DecodeSync(m.data) == Ok(d) && m.id !in n.cache
    requires HoldsForeign(n, d) && OnlyPeer(n, peer) && id !in n.cache && id != m.id
    ensures var c := Choice([peer], [], [id]);
            var o := Receive(n, from, bytes, c);
            && Allowed(o, c) && o.letters == [Letter(peer, SyncMessage(id, n.host, d))]
            && Settled(o) == n.(cache := o.node.cache)
  {
    ReceiveMeans(n, from, bytes, m, Choice([peer], [], [id]));
    FreshIsSafe(Holding(n, m), id);
    assert n.peers.Keys == {peer.id};
  }

  lemma Learns(n: Node, from: Address, bytes: Bytes, m: Message, d: Device, peer: Peer)
    requires DecodeEnvelope(bytes) == Ok(m) && m.kind == SYNC && DecodeSync(m.data) == Ok(d) && m.id !in n.cache
    requires m.id != ZERO_ID && ZERO_ID !in n.cache && d.id !in n.store && OnlyPeer(n, peer) && peer.id != m.sender
    ensures var c := Choice([peer], [], []);
            var o := Receive(n, from, bytes, c);
            && Allowed(o, c) && o.letters == [Letter(peer, m)]
            && Settled(o) == n.(cache := o.node.cache, store := n.store[d.id := d])
  {
    SafeForRelay(n, m);
    assert n.peers.Keys == {peer.id};
    RelayNeedsPick(n, from, bytes, m, [peer]);
    ReceiveMeans(n, from, bytes, m, Choice([peer], [], []));
  }

  lemma VolleyBack(v: World, v': World, here: Address, there: Address, m: Message, m': Message, d: Device)
    requires Volley(v, here, there, m, d) && m'.id !in v.used && m'.kind == SYNC && DecodeSync(m'.data) == Ok(d)
    requires LetterWent(v, v', there, v.nodes[there], {m'.id}) && OnItsWay(v', here, m')
    requires v'.nodes[there].cache.Keys <= v.nodes[there].cache.Keys + {m.id, m'.id}
    ensures Volley(v', there, here, m', d)
  {
    StayUsed(v, v', there, v.nodes[there], {m'.id}, {m.id, m'.id});
  }

  lemma VolleyAnswered(v: World, here: Address, there: Address, m: Message, d: Device, id: Id)
    returns (c: Choice, l: Letter)
    requires Volley(v, here, there, m, d) && id !in v.used
    ensures var n := v.nodes[there];
            var o := Receive(n, v.air[0].from, v.air[0].bytes, c);
            Allowed(o, c) && o.letters == [l] && Settled(o) == n.(cache := o.node.cache)
    ensures FreshIds(v, c.ids) && IdSet(c.ids) == {id}
    ensures l.peer.address == here && l.message.id == id
    ensures l.message.kind == SYNC && DecodeSync(l.message.data) == Ok(d)
  {
    var n, peer := v.nodes[there], Peer(v.nodes[here].host, here);
    c, l := Choice([peer], [], [id]), Letter(peer, SyncMessage(id, n.host, d));
    Answers(n, v.air[0].from, v.air[0].bytes, m, d, peer, id);
    SyncDecodes(d);
    assert IdSet([id]) == {id};
  }

  // The receiver answers under a new id, and the answer is on its way back.
  lemma Return(v: World, here: Address, there: Address, m: Message, d: Device, id: Id)
    returns (run: seq<Step>, v': World, m': Message)
    requires Volley(v, here, there, m, d) && id !in v.used
    ensures Run(v, run) && End(v, run) == v' && |run| == 1 && run[0].action == Deliver(0)
    ensures forall x :: UpdateCount(v, run, x) == 0
    ensures Volley(v', there, here, m', d) && v'.used == v.used + {id}
  {
    var c, l := VolleyAnswered(v, here, there, m, d, id);
    m' := l.message;
    run, v' := Handling(v, there, m, c, l, true);
    VolleyBack(v, v', here, there, m, m', d);
  }

  lemma FreshRest(v: World, v': World, ids: seq<Id>)
    requires FreshIds(v, ids) && ids != [] && v'.used == v.used + {ids[0]}
    ensures ids[0] !in v.used && FreshIds(v', ids[1..])
  {
  }

  // For as many new ids as there are, so many deliveries, and still a sync in flight.
  lemma {:induction false} RallyGoesOn(
    v: World, here: Address, there: Address, m: Message, d: Device, ids: seq<Id>)
    returns (run: seq<Step>, m': Message)
    requires Volley(v, here, there, m, d) && FreshIds(v, ids)
    ensures Run(v, run) && |run| == |ids| && forall s :: s in run ==> s.action == Deliver(0)
    ensures forall id :: UpdateCount(v, run, id) == 0
    ensures var v' := End(v, run); Volley(v', here, there, m', d) || Volley(v', there, here, m', d)
    decreases |ids|
  {
    if ids == [] {
      run, m' := [], m;
    } else {
      var first, v', answer := Return(v, here, there, m, d, ids[0]);
      var rest;
      FreshRest(v, v', ids);
      rest, m' := RallyGoesOn(v', there, here, answer, d, ids[1..]);
      RunJoins(v, first, rest);
      run := first + rest;
    }
  }

  // ---- How it begins ----

  // An owner that knows a client, which knows another client and is known by it.
  ghost predicate Trio(v: World, home: Address, here: Address, there: Address) {
    && home in v.nodes && here in v.nodes && there in v.nodes
    && home != here && home != there && here != there
    && OnlyPeer(v.nodes[home], Peer(v.nodes[here].host, here))
    && OnlyPeer(v.nodes[here], Peer(v.nodes[there].host, there))
    && OnlyPeer(v.nodes[there], Peer(v.nodes[here].host, here))
    && v.nodes[home].host != v.nodes[here].host && v.nodes[home].host != v.nodes[there].host
    && CachesUsed(v) && ZERO_ID in v.used
  }

  lemma TwoLetters(at: Address, s: Node, k: Letter, l: Letter)
    ensures Datagrams(at, [k, l], [false, true]) == [Datagram(at, l.peer.address, EncodeEnvelope(l.message))]
    ensures Posted(s, [k, l], [false, true]) == Quarantined(s, l.message.id, l.peer.id)
  {
    OneLetter(at, s, k, false);
    assert [k, l][..1] == [k] && [false, true][..1] == [false];
  }

  lemma HailingOutcome(n: Node, peer: Peer, d: Device, hid: Id, sid: Id)
    requires OnlyPeer(n, peer) && n.store == map[d.id := d] && Readable(d) && hid !in n.cache
    ensures var c := Choice([peer], [d.id], [hid, sid]);
            var o := SendHail(n, c);
            && Allowed(o, c) && Settled(o) == n.(cache := Sweep(n.cache, n.now))
            && o.letters == [Letter(peer, Message(hid, n.host, HAIL, [])), Letter(peer, SyncMessage(sid, n.host, d))]
  {
    var c := Choice([peer], [d.id], [hid, sid]);
    FreshIsSafe(n, hid);
    assert n.peers.Keys == {peer.id};
    assert [d.id][..0] == [] && [hid, sid][1..] == [sid];
    assert Batch(n, c.order, [sid]) == [SyncMessage(sid, n.host, d)];
    var hail, sync := Message(hid, n.host, HAIL, []), SyncMessage(sid, n.host, d);
    assert [peer][..0] == [] && Burst([], [hail] + [sync]) == [];
    assert ToOne(peer, [hail] + [sync]) == [Letter(peer, hail), Letter(peer, sync)];
    assert ListsStore(n, [d.id]);
    assert n.peers != map[];
  }

  // A client with one device hails its only peer; the hail is lost, the sync that follows it is not.
  lemma Hailing(v: World, at: Address, peer: Peer, d: Device, hid: Id, sid: Id)
    returns (run: seq<Step>, v': World, m: Message)
    requires at in v.nodes && OnlyPeer(v.nodes[at], peer) && v.nodes[at].store == map[d.id := d] && Readable(d)
    requires v.air == [] && FreshIds(v, [hid, sid]) && CachesUsed(v)
    ensures Run(v, run) && End(v, run) == v' && |run| == 1 && forall id :: UpdateCount(v, run, id) == 0
    ensures m.id == sid && m.sender == v.nodes[at].host && m.kind == SYNC && DecodeSync(m.data) == Ok(d)
    ensures OnItsWay(v', peer.address, m) && LetterWent(v, v', at, v.nodes[at], {hid, sid})
    ensures v'.nodes[at].cache.Keys <= v.nodes[at].cache.Keys + {sid}
  {
    var n, c := v.nodes[at], Choice([peer], [d.id], [hid, sid]);
    var s := Step(Hail(at), c, [false, true]);
    m := SyncMessage(sid, n.host, d);
    assert [hid, sid][0] == hid;
    HailingOutcome(n, peer, d, hid, sid);
    TwoLetters(at, Settled(OutcomeOf(v, s)), Letter(peer, Message(hid, n.host, HAIL, [])), Letter(peer, m));
    EnvelopeDecodes(m);
    SyncDecodes(d);
    assert IdSet([hid, sid]) == {hid, sid};
    run, v' := [s], Do(v, s);
    RunOfOne(v, s);
  }

  // A client that has nothing learns the device and passes the sync on, or fails to.
  lemma Learning(v: World, at: Address, peer: Peer, m: Message, d: Device, ok: bool)
    returns (run: seq<Step>, v': World)
    requires at in v.nodes && OnlyPeer(v.nodes[at], peer) && v.nodes[at].store == map[]
    requires OnItsWay(v, at, m) && m.kind == SYNC && DecodeSync(m.data) == Ok(d) && peer.id != m.sender
    requires CachesUsed(v) && m.id != ZERO_ID && m.id !in v.nodes[at].cache
    ensures Run(v, run) && End(v, run) == v' && |run| == 1 && forall id :: UpdateCount(v, run, id) == 0
    ensures LetterWent(v, v', at, v.nodes[at].(store := map[d.id := d]), {})
    ensures if ok then OnItsWay(v', peer.address, m) else v'.air == []
    ensures v'.nodes[at].cache.Keys <= v.nodes[at].cache.Keys + {m.id}
  {
    var n, g, c := v.nodes[at], v.air[0], Choice([peer], [], []);
    assert ZERO_ID !in v.nodes[at].cache;
    Learns(n, g.from, g.bytes, m, d, peer);
    assert map[][d.id := d] == map[d.id := d];
    assert IdSet([]) == {};
    run, v' := Handling(v, at, m, c, Letter(peer, m), ok);
  }

  lemma TrioStays(v: World, v': World, home: Address, here: Address, there: Address,
                  at: Address, n': Node, used: set<Id>, more: set<Id>)
    requires Trio(v, home, here, there) && LetterWent(v, v', at, n', used)
    requires n'.host == v.nodes[at].host && n'.peers == v.nodes[at].peers
    requires more <= v'.used - {ZERO_ID} && v'.nodes[at].cache.Keys <= v.nodes[at].cache.Keys + more
    ensures Trio(v', home, here, there)
  {
    StayUsed(v, v', at, n', used, more);
  }

  // One of the three learns the device.
  lemma OneLearns(v: World, home: Address, here: Address, there: Address, at: Address, peer: Peer,
                  m: Message, d: Device, ok: bool)
    returns (run: seq<Step>, v': World)
    requires Trio(v, home, here, there) && at in {here, there} && OnlyPeer(v.nodes[at], peer)
    requires OnItsWay(v, at, m) && m.kind == SYNC && DecodeSync(m.data) == Ok(d) && peer.id != m.sender
    requires m.id in v.used && m.id != ZERO_ID && m.id !in v.nodes[at].cache && v.nodes[at].store == map[]
    ensures Run(v, run) && End(v, run) == v' && |run| == 1 && forall id :: UpdateCount(v, run, id) == 0
    ensures Trio(v', home, here, there) && v'.used == v.used
    ensures if ok then OnItsWay(v', peer.address, m) else v'.air == []
    ensures v'.nodes.Keys == v.nodes.Keys && v'.nodes[at].host == v.nodes[at].host
    ensures v'.nodes[at].store == map[d.id := d] && v'.nodes[at].peers == v.nodes[at].peers
    ensures forall a :: a in v.nodes && a != at ==> v'.nodes[a] == v.nodes[a]
  {
    run, v' := Learning(v, at, peer, m, d, ok);
    TrioStays(v, v', home, here, there, at, v.nodes[at].(store := map[d.id := d]), {}, {m.id});
  }

  // The first client learns the device and passes it on to the second, which learns it too but
  // fails to send it back.
  lemma BothLearn(v: World, home: Address, here: Address, there: Address, m: Message, d: Device)
    returns (run: seq<Step>, v': World)
    requires Trio(v, home, here, there) && OnItsWay(v, here, m) && m.kind == SYNC && DecodeSync(m.data) == Ok(d)
    requires m.sender == v.nodes[home].host && m.id in v.used && m.id != ZERO_ID
    requires m.id !in v.nodes[here].cache && m.id !in v.nodes[there].cache
    requires v.nodes[here].store == v.nodes[there].store == map[]
    ensures Run(v, run) && End(v, run) == v' && |run| == 2 && forall id :: UpdateCount(v, run, id) == 0
    ensures Trio(v', home, here, there) && v'.air == [] && v'.used == v.used
    ensures v'.nodes[here].store == v'.nodes[there].store == map[d.id := d]
    ensures v'.nodes[here].host == v.nodes[here].host && v'.nodes[there].host == v.nodes[there].host
    ensures v'.nodes[home] == v.nodes[home]
  {
    var toHere, toThere := Peer(v.nodes[here].host, here), Peer(v.nodes[there].host, there);
    var a, v1 := OneLearns(v, home, here, there, here, toThere, m, d, true);
    var b;
    b, v' := OneLearns(v1, home, here, there, there, toHere, m, d, false);
    RunJoins(v, a, b);
    run := a + b;
  }

  // One of the three hails its only peer.
  lemma OneHails(v: World, home: Address, here: Address, there: Address, at: Address, peer: Peer,
                 d: Device, hid: Id, sid: Id)
    returns (run: seq<Step>, v': World, m: Message)
    requires Trio(v, home, here, there) && v.air == [] && FreshIds(v, [hid, sid])
    requires at in {home, here, there} && OnlyPeer(v.nodes[at], peer)
    requires v.nodes[at].store == map[d.id := d] && Readable(d)
    ensures Run(v, run) && End(v, run) == v' && |run| == 1 && forall id :: UpdateCount(v, run, id) == 0
    ensures Trio(v', home, here, there) && v'.used == v.used + {hid, sid}
    ensures OnItsWay(v', peer.address, m) && m.kind == SYNC && DecodeSync(m.data) == Ok(d)
    ensures m.sender == v.nodes[at].host && m.id == sid && sid != ZERO_ID
    ensures forall a :: a in v.nodes ==> a in v'.nodes && v'.nodes[a] == v.nodes[a].(cache := v'.nodes[a].cache)
    ensures forall a :: a in v.nodes && a != at ==> sid !in v'.nodes[a].cache
  {
    assert [hid, sid][1] == sid;
    run, v', m := Hailing(v, at, peer, d, hid, sid);
    TrioStays(v, v', home, here, there, at, v.nodes[at], {hid, sid}, {sid});
  }

  lemma OwnerCreates(w: World, home: Address, here: Address, there: Address, kind: Byte, device: Id)
    returns (run: seq<Step>, v: World)
    requires Trio(w, home, here, there) && w.nodes[home].store == map[] && device !in w.used
    ensures Run(w, run) && End(w, run) == v && |run| == 1 && forall id :: UpdateCount(w, run, id) == 0
    ensures Trio(v, home, here, there) && v.air == w.air && v.used == w.used + {device}
    ensures v.nodes[home].store == map[device := Device(device, w.nodes[home].host, kind, 0, 0)]
    ensures v.nodes[home].host == w.nodes[home].host
    ensures v.nodes[here] == w.nodes[here] && v.nodes[there] == w.nodes[there]
  {
    run, v := Redelivery.Creating(w, home, device, kind);
  }

  // The owner creates a device and tells its peer.
  lemma OwnerTells(w: World, home: Address, here: Address, there: Address, kind: Byte, device: Id, hid: Id, sid: Id)
    returns (run: seq<Step>, v: World, m: Message)
    requires Trio(w, home, here, there) && w.air == [] && w.nodes[home].store == map[] && kind != KIND_UNKNOWN
    requires device !in w.used && FreshIds(w.(used := w.used + {device}), [hid, sid])
    ensures Run(w, run) && End(w, run) == v && |run| == 2 && forall id :: UpdateCount(w, run, id) == 0
    ensures Trio(v, home, here, there) && v.used == w.used + {device} + {hid, sid}
    ensures OnItsWay(v, here, m) && m.kind == SYNC && m.sender == v.nodes[home].host && m.id == sid
    ensures DecodeSync(m.data) == Ok(Device(device, w.nodes[home].host, kind, 0, 0))
    ensures sid != ZERO_ID && sid !in v.nodes[here].cache && sid !in v.nodes[there].cache
    ensures v.nodes[home].host == w.nodes[home].host
    ensures v.nodes[here].store == w.nodes[here].store && v.nodes[there].store == w.nodes[there].store
  {
    var d := Device(device, w.nodes[home].host, kind, 0, 0);
    var a, v1 := OwnerCreates(w, home, here, there, kind, device);
    var b;
    b, v, m := OneHails(v1, home, here, there, home, Peer(w.nodes[here].host, here), d, hid, sid);
    RunJoins(w, a, b);
    run := a + b;
  }

  // Both clients learn the device, and one of them hails the other.
  lemma VolleyBegins(v: World, home: Address, here: Address, there: Address, m: Message, d: Device, hid: Id, sid: Id)
    returns (run: seq<Step>, m': Message)
    requires Trio(v, home, here, there) && OnItsWay(v, here, m) && m.kind == SYNC && DecodeSync(m.data) == Ok(d)
    requires m.sender == v.nodes[home].host && m.id in v.used && m.id != ZERO_ID
    requires m.id !in v.nodes[here].cache && m.id !in v.nodes[there].cache
    requires v.nodes[here].store == v.nodes[there].store == map[] && d.owner == v.nodes[home].host && Readable(d)
    requires FreshIds(v, [hid, sid])
    ensures Run(v, run) && |run| == 3 && forall id :: UpdateCount(v, run, id) == 0
    ensures Volley(End(v, run), here, there, m', d) && End(v, run).used == v.used + {hid, sid}
  {
    var a, v1 := BothLearn(v, home, here, there, m, d);
    var b, v2;
    b, v2, m' := OneHails(v1, home, here, there, here, Peer(v1.nodes[there].host, there), d, hid, sid);
    RunJoins(v, a, b);
    run := a + b;
  }

  lemma Opening(w: World, home: Address, here: Address, there: Address, kind: Byte,
                device: Id, hid: Id, sid: Id, hid': Id, sid': Id)
    returns (run: seq<Step>, m: Message, d: Device)
    requires Trio(w, home, here, there) && w.air == [] && kind != KIND_UNKNOWN
    requires w.nodes[home].store == w.nodes[here].store == w.nodes[there].store == map[]
    requires device !in w.used && FreshIds(w.(used := w.used + {device}), [hid, sid])
    requires FreshIds(w.(used := w.used + {device} + {hid, sid}), [hid', sid'])
    ensures Run(w, run) && |run| == 5 && forall id :: UpdateCount(w, run, id) == 0
    ensures Volley(End(w, run), here, there, m, d)
    ensures End(w, run).used == w.used + {device} + {hid, sid} + {hid', sid'}
  {
    var a, v, tell := OwnerTells(w, home, here, there, kind, device, hid, sid);
    d := Device(device, w.nodes[home].host, kind, 0, 0);
    var b;
    b, m := VolleyBegins(v, home, here, there, tell, d, hid', sid');
    RunJoins(w, a, b);
    run := a + b;
  }

  lemma FiveFresh(w: World, first: seq<Id>)
    requires FreshIds(w, first) && |first| == 5
    ensures first[0] !in w.used && FreshIds(w.(used := w.used + {first[0]}), [first[1], first[2]])
    ensures FreshIds(w.(used := w.used + {first[0]} + {first[1], first[2]}), [first[3], first[4]])
  {
  }

  lemma OpeningWith(w: World, home: Address, here: Address, there: Address, kind: Byte, first: seq<Id>)
    returns (run: seq<Step>, m: Message, d: Device)
    requires Trio(w, home, here, there) && w.air == [] && kind != KIND_UNKNOWN
    requires w.nodes[home].store == w.nodes[here].store == w.nodes[there].store == map[]
    requires FreshIds(w, first) && |first| == 5
    ensures Run(w, run) && |run| == 5 && forall id :: UpdateCount(w, run, id) == 0
    ensures Volley(End(w, run), here, there, m, d)
    ensures forall id :: id in End(w, run).used ==> id in w.used || id in first
  {
    FiveFresh(w, first);
    run, m, d := Opening(w, home, here, there, kind, first[0], first[1], first[2], first[3], first[4]);
  }

  // From scratch there is a run of three clients that nobody need ever end: after five steps, and for
  // every list of new ids, it goes on for as many deliveries and nothing else, no device is updated
  // any more, and a sync of a device that everybody has is still in flight.
  lemma SyncsNeedNotDieOut(
    w: World, home: Address, here: Address, there: Address, kind: Byte, first: seq<Id>, ids: seq<Id>)
    returns (steps: seq<Step>, m: Message, d: Device)
    requires Init(w) && Trio(w, home, here, there) && kind != KIND_UNKNOWN
    requires |first| == 5 && FreshIds(w, first) && FreshIds(w, ids) && forall id :: id in ids ==> id !in first
    ensures FromScratch(w, steps) && |steps| == 5 + |ids|
    ensures forall i :: 5 <= i < |steps| ==> steps[i].action == Deliver(0)
    ensures forall id :: UpdateCount(w, steps, id) == 0
    ensures var v := End(w, steps); Volley(v, here, there, m, d) || Volley(v, there, here, m, d)
  {
    var start, serve;
    start, serve, d := OpeningWith(w, home, here, there, kind, first);
    var rest;
    rest, m := RallyGoesOn(End(w, start), here, there, serve, d, ids);
    RunJoins(w, start, rest);
    steps := start + rest;
  }
}
