// Which received messages are passed on, and to whom. A newer sync is never handed back to the
// sender it names. A patch can be: its peers are picked without asking the quarantine about it.
module Relay {
  import opened Entity
  import opened Wire
  import opened PeerCache
  import opened MessageCache
  import opened Protocol
  import opened Letters
  import opened Network
  import opened Agreement
  import opened Runs
  import opened Quarantine

  predicate RelaysPatch(n: Node, m: Message) {
    m.kind == PATCH && DecodePatch(m.data).Ok? && !Owns(n, DecodePatch(m.data).value.0)
  }

  predicate RelaysSync(n: Node, m: Message) {
    && m.kind == SYNC && DecodeSync(m.data).Ok?
    && var d := DecodeSync(m.data).value; !Owns(n, d.id) && IsNewer(n, d.id, d.version)
  }

  // The state in which a dispatched message is handled.
  function Holding(n: Node, m: Message): Node {
    Quarantined(Swept(n), m.id, m.sender)
  }

  // ---- One handler ----

  // After the message has been put in quarantine, only its sender counts as served.
  lemma ServedIsSender(n: Node, m: Message, p: Id)
    requires !Known(n.cache, m.id, n.now)
    ensures KnownFor(Holding(n, m).cache, m.id, p, n.now) <==> p == m.sender
    ensures KnownFor(Selecting(Holding(n, m)).cache, m.id, p, n.now) <==> p == m.sender
  {
    var held := Holding(n, m);
    assert held.cache[m.id] == map[m.sender := n.now + TIME_TO_LIVE];
    SweepInvisible(held.cache, m.id, p, n.now, n.now);
  }

  lemma SafeForRelay(n: Node, m: Message)
    requires !Known(n.cache, m.id, n.now) && m.id != ZERO_ID && ZERO_ID !in n.cache
    ensures SafePeers(Selecting(Holding(n, m)), m.id) == n.peers.Keys - {m.sender}
    ensures SafePeers(Selecting(Holding(n, m)), ZERO_ID) == n.peers.Keys
  {
    forall p
      ensures KnownFor(Selecting(Holding(n, m)).cache, m.id, p, n.now) <==> p == m.sender
    {
      ServedIsSender(n, m, p);
    }
  }

  // Nobody has had a message that has just been made.
  lemma FreshIsSafe(n: Node, id: Id)
    requires id !in n.cache
    ensures SafePeers(Selecting(n), id) == n.peers.Keys
  {
  }

  // A handler either passes the message on to the peers it picked or sends nothing under its id.
  lemma RelayedOrNot(n: Node, from: Address, bytes: Bytes, m: Message, c: Choice)
    requires DecodeEnvelope(bytes) == Ok(m) && Dispatches(n, bytes)
    requires Allowed(Receive(n, from, bytes, c), c) && m.id !in c.ids
    ensures var letters := Receive(n, from, bytes, c).letters;
            if RelaysPatch(n, m) || RelaysSync(n, m) then letters == ToEach(c.picked, m)
            else forall j :: 0 <= j < |letters| ==> letters[j].message.id != m.id
  {
    ReceiveMeans(n, from, bytes, m, c);
    if m.kind == HAIL {
      BatchTells(Holding(n, m), c.order, c.ids);
      var batch := Batch(Holding(n, m), c.order, c.ids);
      forall k | 0 <= k < |batch|
        ensures batch[k].id in c.ids
      {
        assert TellsOne(Holding(n, m), c.order, IdAt(c.ids, k), batch[k]);
      }
    }
  }

  // A newer sync travels on under its own id, to unserved peers and never back to the sender
  // named in it.
  lemma RelayAvoidsSender(n: Node, from: Address, bytes: Bytes, m: Message, c: Choice, j: nat)
    requires DecodeEnvelope(bytes) == Ok(m) && Dispatches(n, bytes) && m.kind == SYNC
    requires Allowed(Receive(n, from, bytes, c), c)
    requires Receive(n, from, bytes, c).saved.Some? && j < |Receive(n, from, bytes, c).letters|
    ensures var letter := Receive(n, from, bytes, c).letters[j];
            && letter.message == m && letter.peer.id != m.sender
            && Listed(n.peers, letter.peer) && !KnownFor(n.cache, m.id, letter.peer.id, n.now)
  {
    var o := Receive(n, from, bytes, c);
    ReceiveMeans(n, from, bytes, m, c);
    var p := o.letters[j].peer.id;
    assert p in SafePeers(o.node, m.id);
    ServedIsSender(n, m, p);
    KnownMeans(n.cache, m.id, n.now);
  }

  // The shortest way a duplicate comes about: whoever's only peer is the sender of a patch for a
  // device that is not its own sends the patch right back, although the quarantine knows better.
  lemma PatchBounces(n: Node, from: Address, bytes: Bytes, m: Message, c: Choice, a: Address)
    requires DecodeEnvelope(bytes) == Ok(m) && RelaysPatch(n, m) && m.id != ZERO_ID
    requires n.cache == map[] && n.peers == map[m.sender := Peer(m.sender, a)]
    requires Allowed(Receive(n, from, bytes, c), c)
    ensures Receive(n, from, bytes, c).letters == [Letter(Peer(m.sender, a), m)]
    ensures KnownFor(Receive(n, from, bytes, c).node.cache, m.id, m.sender, n.now)
  {
    ReceiveMeans(n, from, bytes, m, c);
    SafeForRelay(n, m);
    ServedIsSender(n, m, m.sender);
    assert n.peers.Keys == {m.sender};
    assert |c.picked| == 1 && Listed(n.peers, c.picked[0]);
  }

  // ---- Every pick is possible ----

  lemma {:induction false} AnyPick(peers: Peers, safe: set<Id>, count: nat) returns (picked: seq<Peer>)
    requires OwnKeys(peers) && safe <= peers.Keys && count <= |safe|
    ensures |picked| == count && DistinctIds(picked)
    ensures forall i :: 0 <= i < count ==> picked[i].id in safe && Listed(peers, picked[i])
    decreases count
  {
    if count == 0 {
      picked := [];
    } else {
      var p :| p in safe;
      var others := AnyPick(peers, safe - {p}, count - 1);
      picked := others + [peers[p]];
    }
  }

  lemma PickWith(n: Node, message: Id, count: int, p: Id) returns (picked: seq<Peer>)
    requires OwnKeys(n.peers) && p in SafePeers(n, message)
    ensures ValidPick(n, message, count, picked) && n.peers[p] in picked
  {
    var safe := SafePeers(n, message);
    assert |safe - {p}| == |safe| - 1;
    var others := AnyPick(n.peers, safe - {p}, Quota(|safe|, count) - 1);
    picked := others + [n.peers[p]];
  }

  // ---- In the network ----

  function MessageAt(v: World, i: nat): Message
    requires i < |v.air| && DecodeEnvelope(v.air[i].bytes).Ok?
  {
    DecodeEnvelope(v.air[i].bytes).value
  }

  // Some way of handling the datagram tries to hand its message to this peer.
  ghost predicate CanReach(v: World, i: nat, p: Peer)
    requires i < |v.air| && DecodeEnvelope(v.air[i].bytes).Ok?
  {
    exists step :: Enabled(v, step) && step.action == Deliver(i) &&
                   Letter(p, MessageAt(v, i)) in OutcomeOf(v, step).letters
  }

  predicate PassesOn(n: Node, m: Message, p: Id) {
    RelaysPatch(n, m) || (RelaysSync(n, m) && p != m.sender)
  }

  lemma ReachedWasPicked(v: World, step: Step, i: nat, p: Peer)
    requires Inv(v) && LogOk(v) && Enabled(v, step) && step.action == Deliver(i) && IsDispatch(v, step.action)
    requires DecodeEnvelope(v.air[i].bytes).Ok? && Letter(p, MessageAt(v, i)) in OutcomeOf(v, step).letters
    ensures var n := v.nodes[v.air[i].to]; Listed(n.peers, p) && PassesOn(n, MessageAt(v, i), p.id)
  {
    var g, c := v.air[i], step.choice;
    var n, m := v.nodes[g.to], MessageAt(v, i);
    assert DatagramOk(v, g);
    ReceiveMeans(n, g.from, g.bytes, m, c);
    RelayedOrNot(n, g.from, g.bytes, m, c);
    SafeForRelay(n, m);
  }

  // Any legitimate pick is all it takes to pass a message on: no ids are drawn.
  lemma RelayNeedsPick(n: Node, from: Address, bytes: Bytes, m: Message, picked: seq<Peer>)
    requires DecodeEnvelope(bytes) == Ok(m) && Dispatches(n, bytes)
    requires RelaysPatch(n, m) || RelaysSync(n, m)
    requires ValidPick(Selecting(Holding(n, m)), if RelaysPatch(n, m) then ZERO_ID else m.id, MIN_INT, picked)
    ensures var c := Choice(picked, [], []); Allowed(Receive(n, from, bytes, c), c)
    ensures Receive(n, from, bytes, Choice(picked, [], [])).letters == ToEach(picked, m)
  {
    ReceiveMeans(n, from, bytes, m, Choice(picked, [], []));
  }

  lemma PickReaching(n: Node, m: Message, p: Peer) returns (picked: seq<Peer>)
    requires !Known(n.cache, m.id, n.now) && m.id != ZERO_ID && ZERO_ID !in n.cache && OwnKeys(n.peers)
    requires Listed(n.peers, p) && PassesOn(n, m, p.id)
    ensures ValidPick(Selecting(Holding(n, m)), if RelaysPatch(n, m) then ZERO_ID else m.id, MIN_INT, picked)
    ensures p in picked
  {
    SafeForRelay(n, m);
    picked := PickWith(Selecting(Holding(n, m)), if RelaysPatch(n, m) then ZERO_ID else m.id, MIN_INT, p.id);
  }

  function AllSent(letters: seq<Letter>): (oks: seq<bool>)
    ensures |oks| == |letters|
  {
    seq(|letters|, _ => true)
  }

  lemma CanDeliver(v: World, i: nat, c: Choice)
    requires Placed(v, Deliver(i)) && FreshIds(v, c.ids)
    requires var g := v.air[i]; Allowed(Receive(v.nodes[g.to], g.from, g.bytes, c), c)
    ensures var g := v.air[i];
            var o := Receive(v.nodes[g.to], g.from, g.bytes, c);
            var step := Step(Deliver(i), c, AllSent(o.letters));
            Enabled(v, step) && OutcomeOf(v, step) == o
  {
  }

  lemma Incoming(v: World, i: nat)
    requires Inv(v) && LogOk(v) && Placed(v, Deliver(i)) && IsDispatch(v, Deliver(i))
    requires DecodeEnvelope(v.air[i].bytes).Ok?
    ensures var n, m := v.nodes[v.air[i].to], MessageAt(v, i);
            && OwnKeys(n.peers) && !Known(n.cache, m.id, n.now)
            && m.id != ZERO_ID && m.id in v.used && ZERO_ID !in n.cache
            && (m.kind == SYNC ==> DecodeSync(m.data).Ok?)
  {
    assert DatagramOk(v, v.air[i]);
  }

  lemma PickIsDelivered(v: World, i: nat, p: Peer, picked: seq<Peer>)
    requires Placed(v, Deliver(i)) && DecodeEnvelope(v.air[i].bytes).Ok? && p in picked
    requires var g, c := v.air[i], Choice(picked, [], []);
             var o := Receive(v.nodes[g.to], g.from, g.bytes, c);
             Allowed(o, c) && o.letters == ToEach(picked, MessageAt(v, i))
    ensures CanReach(v, i, p)
  {
    CanDeliver(v, i, Choice(picked, [], []));
    var k :| 0 <= k < |picked| && picked[k] == p;
    assert ToEach(picked, MessageAt(v, i))[k] == Letter(p, MessageAt(v, i));
  }

  lemma PickedIsReached(v: World, i: nat, p: Peer)
    requires Inv(v) && LogOk(v) && Placed(v, Deliver(i)) && IsDispatch(v, Deliver(i))
    requires DecodeEnvelope(v.air[i].bytes).Ok?
    requires var n := v.nodes[v.air[i].to]; Listed(n.peers, p) && PassesOn(n, MessageAt(v, i), p.id)
    ensures CanReach(v, i, p)
  {
    var g, m := v.air[i], MessageAt(v, i);
    Incoming(v, i);
    var picked := PickReaching(v.nodes[g.to], m, p);
    RelayNeedsPick(v.nodes[g.to], g.from, g.bytes, m, picked);
    PickIsDelivered(v, i, p, picked);
  }

  // Exactly who can get a message from a client that has just received it: any listed peer, the
  // sender included, when it is a patch for somebody else's device; any listed peer but the sender
  // when it is a newer sync of such a device; nobody otherwise.
  lemma RelayReaches(w: World, steps: seq<Step>, i: nat, p: Peer)
    requires FromScratch(w, steps)
    requires var v := End(w, steps); Placed(v, Deliver(i)) && IsDispatch(v, Deliver(i))
    ensures var v := End(w, steps);
            && DecodeEnvelope(v.air[i].bytes).Ok?
            && var n, m := v.nodes[v.air[i].to], MessageAt(v, i);
            CanReach(v, i, p) <==>
            Listed(n.peers, p) && (RelaysPatch(n, m) || (RelaysSync(n, m) && p.id != m.sender))
  {
    var v := End(w, steps);
    HistoryInv(w, steps);
    ScratchLog(w, steps);
    assert DatagramOk(v, v.air[i]);
    if CanReach(v, i, p) {
      var step :| Enabled(v, step) && step.action == Deliver(i) &&
                  Letter(p, MessageAt(v, i)) in OutcomeOf(v, step).letters;
      ReachedWasPicked(v, step, i, p);
    } else if Listed(v.nodes[v.air[i].to].peers, p) && PassesOn(v.nodes[v.air[i].to], MessageAt(v, i), p.id) {
      PickedIsReached(v, i, p);
    }
  }

  // In any step whatever, a letter is addressed to a peer that the quarantine already lists for
  // its message if and only if it hands a relayed patch back to the patch's sender.
  lemma OnlyPatchesGoBack(w: World, steps: seq<Step>, step: Step, j: nat)
    requires FromScratch(w, steps) && Enabled(End(w, steps), step) && ByNode(step.action)
    requires j < |OutcomeOf(End(w, steps), step).letters|
    ensures var v := End(w, steps);
            var n, o, received := v.nodes[Actor(v, step.action)], OutcomeOf(v, step), Received(v, step.action);
            KnownFor(o.node.cache, o.letters[j].message.id, o.letters[j].peer.id, n.now) <==>
            received.Some? && RelaysPatch(n, received.value) && o.letters[j].peer.id == received.value.sender
  {
    var v := End(w, steps);
    HistoryInv(w, steps);
    ScratchLog(w, steps);
    LetterIds(v, step);
    StepMidCache(v, step);
    if Received(v, step.action).Some? {
      HandedBack(v, step, j);
    }
  }

  lemma HandedBack(v: World, step: Step, j: nat)
    requires Inv(v) && LogOk(v) && Enabled(v, step) && step.action.Deliver? && IsDispatch(v, step.action)
    requires j < |OutcomeOf(v, step).letters|
    ensures var n, o, m := v.nodes[Actor(v, step.action)], OutcomeOf(v, step), Received(v, step.action).value;
            KnownFor(o.node.cache, o.letters[j].message.id, o.letters[j].peer.id, n.now) <==>
            RelaysPatch(n, m) && o.letters[j].peer.id == m.sender
  {
    var g, c, o := v.air[step.action.index], step.choice, OutcomeOf(v, step);
    var n, m := v.nodes[g.to], Received(v, step.action).value;
    assert DatagramOk(v, g);
    ReceiveMeans(n, g.from, g.bytes, m, c);
    RelayedOrNot(n, g.from, g.bytes, m, c);
    SafeForRelay(n, m);
    ServedIsSender(n, m, o.letters[j].peer.id);
    LetterIds(v, step);
    StepMidCache(v, step);
  }
}
