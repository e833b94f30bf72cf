// What every step does, in plain terms: the acting client's store and peer table after it, and what
// goes out to whom, with every number written out. Nothing here is said through the functions of
// Protocol that make it so.
module Effects {
  import opened Entity
  import opened Wire
  import opened DeviceStore
  import opened PeerCache
  import opened MessageCache
  import opened Protocol
  import opened Letters
  import opened Meaning
  import opened Network
  import opened Agreement
  import opened Runs
  import opened CatchUp
  import opened Quarantine
  import opened Relay

  // ---- Vocabulary ----

  function AtMostFive(count: nat): nat {
    if count < 5 then count else 5
  }

  // All peers of the pool if they are five at most, otherwise five of them, one letter each.
  predicate ToFive(letters: seq<Letter>, peers: Peers, pool: set<Id>) {
    && |letters| == AtMostFive(|pool|)
    && (forall j :: 0 <= j < |letters| ==> letters[j].peer.id in pool && Listed(peers, letters[j].peer))
    && (forall i, j :: 0 <= i < j < |letters| ==> letters[i].peer.id != letters[j].peer.id)
  }

  // A message of this client's making that tells exactly this device.
  predicate IsSyncOf(m: Message, host: Id, ids: seq<Id>, d: Device) {
    m.kind == 3 && m.sender == host && m.id in ids && DecodeSync(m.data) == Ok(d)
  }

  // One client has this store and this peer table now; its name and clock, and all other clients,
  // are as they were.
  predicate Becomes(w: World, w': World, at: Address, store: Devices, peers: Peers) {
    && at in w.nodes && w'.nodes.Keys == w.nodes.Keys
    && (forall a :: a in w.nodes && a != at ==> w'.nodes[a] == w.nodes[a])
    && w'.nodes[at] == Node(w.nodes[at].host, store, peers, w'.nodes[at].cache, w.nodes[at].now)
  }

  // The same of an outcome.
  predicate Leaves(o: Outcome, n: Node, store: Devices, peers: Peers) {
    Settled(o) == Node(n.host, store, peers, Settled(o).cache, n.now)
  }

  // ---- Handler by handler ----

  lemma PickedToFive(o: Outcome, picked: seq<Peer>, id: Id, m: Message, peers: Peers, pool: set<Id>)
    requires o.letters == ToEach(picked, m) && ValidPick(o.node, id, MIN_INT, picked)
    requires o.node.peers == peers && SafePeers(o.node, id) == pool
    ensures ToFive(o.letters, peers, pool)
    ensures forall j :: 0 <= j < |o.letters| ==> o.letters[j].message == m
  {
  }

  lemma OwnPatch(n: Node, device: Id, state: Byte, c: Choice)
    requires KeyedStore(n.store) && ZERO_ID !in n.cache && Allowed(PatchState(n, device, state, c), c)
    requires Mine(n, device) && device in Readables(n.store)
    ensures var o, was := PatchState(n, device, state, c), n.store[device];
            var d := Device(device, n.host, was.kind, state,
                            if was.version == 0x7fff_ffff_ffff_ffff then -0x8000_0000_0000_0000 else was.version + 1);
            && Leaves(o, n, n.store[device := d], n.peers) && ToFive(o.letters, n.peers, n.peers.Keys)
            && forall j :: 0 <= j < |o.letters| ==> IsSyncOf(o.letters[j].message, n.host, c.ids, d)
  {
    var o := PatchState(n, device, state, c);
    FreshIsSafe(n, ZERO_ID);
    SyncDecodes(o.saved.value);
    PickedToFive(o, c.picked, ZERO_ID, SyncMessage(c.ids[0], n.host, o.saved.value), n.peers, n.peers.Keys);
  }

  lemma ForeignPatch(n: Node, device: Id, state: Byte, c: Choice)
    requires ZERO_ID !in n.cache && Allowed(PatchState(n, device, state, c), c) && !Mine(n, device)
    ensures var o := PatchState(n, device, state, c);
            && Leaves(o, n, n.store, n.peers) && ToFive(o.letters, n.peers, n.peers.Keys)
            && forall j :: 0 <= j < |o.letters| ==>
                 var m := o.letters[j].message;
                 m.kind == 2 && m.sender == n.host && m.id in c.ids && DecodePatch(m.data) == Ok((device, state))
  {
    var o := PatchState(n, device, state, c);
    FreshIsSafe(n, ZERO_ID);
    PatchDecodes(device, state);
    PickedToFive(o, c.picked, ZERO_ID, PatchMessage(c.ids[0], n.host, device, state), n.peers, n.peers.Keys);
  }

  lemma OwnPatchReceived(n: Node, m: Message, device: Id, state: Byte, c: Choice)
    requires KeyedStore(n.store) && ZERO_ID !in n.cache && m.id != ZERO_ID && !Known(n.cache, m.id, n.now)
    requires DecodePatch(m.data) == Ok((device, state)) && Allowed(SaveState(Holding(n, m), m, c), c)
    requires Mine(n, device) && device in Readables(n.store)
    ensures var o, was := SaveState(Holding(n, m), m, c), n.store[device];
            var d := Device(device, n.host, was.kind, state,
                            if was.version == 0x7fff_ffff_ffff_ffff then -0x8000_0000_0000_0000 else was.version + 1);
            && Leaves(o, n, n.store[device := d], n.peers) && ToFive(o.letters, n.peers, n.peers.Keys)
            && forall j :: 0 <= j < |o.letters| ==> IsSyncOf(o.letters[j].message, n.host, c.ids, d)
  {
    var o := SaveState(Holding(n, m), m, c);
    SafeForRelay(n, m);
    SyncDecodes(o.saved.value);
    PickedToFive(o, c.picked, ZERO_ID, SyncMessage(c.ids[0], n.host, o.saved.value), n.peers, n.peers.Keys);
  }

  lemma ForeignPatchReceived(n: Node, m: Message, device: Id, state: Byte, c: Choice)
    requires ZERO_ID !in n.cache && m.id != ZERO_ID && !Known(n.cache, m.id, n.now)
    requires DecodePatch(m.data) == Ok((device, state)) && Allowed(SaveState(Holding(n, m), m, c), c)
    requires !Mine(n, device)
    ensures var o := SaveState(Holding(n, m), m, c);
            && Leaves(o, n, n.store, n.peers) && ToFive(o.letters, n.peers, n.peers.Keys)
            && forall j :: 0 <= j < |o.letters| ==> o.letters[j].message == m
  {
    SafeForRelay(n, m);
    PickedToFive(SaveState(Holding(n, m), m, c), c.picked, ZERO_ID, m, n.peers, n.peers.Keys);
  }

  lemma NewerSync(n: Node, m: Message, d: Device, c: Choice)
    requires ZERO_ID !in n.cache && m.id != ZERO_ID && !Known(n.cache, m.id, n.now)
    requires DecodeSync(m.data) == Ok(d) && Allowed(SaveDevice(Holding(n, m), m, c), c)
    requires !Mine(n, d.id) && !HasNewer(n, d)
    ensures var o := SaveDevice(Holding(n, m), m, c);
            && Leaves(o, n, n.store[d.id := d], n.peers) && ToFive(o.letters, n.peers, n.peers.Keys - {m.sender})
            && forall j :: 0 <= j < |o.letters| ==> o.letters[j].message == m
  {
    SafeForRelay(n, m);
    PickedToFive(SaveDevice(Holding(n, m), m, c), c.picked, m.id, m, n.peers, n.peers.Keys - {m.sender});
  }

  lemma StaleSync(n: Node, m: Message, d: Device, c: Choice)
    requires KeyedStore(n.store) && forall id :: id in c.ids ==> id !in n.cache && id != m.id
    requires DecodeSync(m.data) == Ok(d) && Allowed(SaveDevice(Holding(n, m), m, c), c)
    requires !Mine(n, d.id) && HasNewer(n, d) && d.id in Readables(n.store)
    ensures var o := SaveDevice(Holding(n, m), m, c);
            && Leaves(o, n, n.store, n.peers) && ToFive(o.letters, n.peers, n.peers.Keys)
            && forall j :: 0 <= j < |o.letters| ==> IsSyncOf(o.letters[j].message, n.host, c.ids, n.store[d.id])
  {
    var o, answer := SaveDevice(Holding(n, m), m, c), SyncMessage(c.ids[0], n.host, n.store[d.id]);
    FreshIsSafe(Holding(n, m), c.ids[0]);
    SyncDecodes(n.store[d.id]);
    PickedToFive(o, c.picked, c.ids[0], answer, n.peers, n.peers.Keys);
  }

  predicate TellsSome(m: Message, host: Id, store: Devices, ids: seq<Id>) {
    exists id :: id in Readables(store) && IsSyncOf(m, host, ids, store[id])
  }

  predicate IsTold(batch: seq<Message>, host: Id, d: Device, ids: seq<Id>) {
    exists k :: 0 <= k < |batch| && IsSyncOf(batch[k], host, ids, d)
  }

  // A batch that tells every readable device once, and nothing else.
  predicate TellsStore(batch: seq<Message>, host: Id, store: Devices, ids: seq<Id>) {
    && |batch| == |Readables(store)|
    && (forall k :: 0 <= k < |batch| ==> TellsSome(batch[k], host, store, ids))
    && (forall id :: id in Readables(store) ==> IsTold(batch, host, store[id], ids))
  }

  lemma BatchTellsStore(n: Node, order: seq<Id>, ids: seq<Id>)
    requires KeyedStore(n.store) && ListsStore(n, order) && |ids| == |Batch(n, order, ids)|
    ensures TellsStore(Batch(n, order, ids), n.host, n.store, ids)
  {
    var batch := Batch(n, order, ids);
    BatchCount(n, order, ids);
    assert ReadableIn(n, order) == Readables(n.store);
    BatchTells(n, order, ids);
    forall k | 0 <= k < |batch|
      ensures TellsSome(batch[k], n.host, n.store, ids)
    {
      assert TellsOne(n, order, ids[k], batch[k]);
      var id :| id in order && CanRead(n, id) && batch[k] == SyncMessage(ids[k], n.host, n.store[id]);
      SyncDecodes(n.store[id]);
      assert id in Readables(n.store);
    }
    forall id | id in Readables(n.store)
      ensures IsTold(batch, n.host, n.store[id], ids)
    {
      var k := BatchCovers(n, order, ids, id);
      SyncDecodes(n.store[id]);
      assert IsSyncOf(batch[k], n.host, ids, n.store[id]);
    }
  }

  function MessagesOf(letters: seq<Letter>): (batch: seq<Message>)
    ensures |batch| == |letters|
  {
    seq(|letters|, i requires 0 <= i < |letters| => letters[i].message)
  }

  lemma HailReceived(n: Node, from: Address, m: Message, c: Choice)
    requires KeyedStore(n.store) && Allowed(SaluteOnHail(Holding(n, m), from, m, c), c)
    ensures var o := SaluteOnHail(Holding(n, m), from, m, c);
            && Leaves(o, n, n.store, n.peers[m.sender := Peer(m.sender, from)])
            && TellsStore(MessagesOf(o.letters), n.host, n.store, c.ids)
            && forall j :: 0 <= j < |o.letters| ==> o.letters[j].peer == Peer(m.sender, from)
  {
    BatchTellsStore(Holding(n, m), c.order, c.ids);
    assert MessagesOf(SaluteOnHail(Holding(n, m), from, m, c).letters) == Batch(Holding(n, m), c.order, c.ids);
  }

  predicate Hears(letters: seq<Letter>, p: Peer, host: Id, d: Device, ids: seq<Id>) {
    exists j :: 0 <= j < |letters| && letters[j].peer == p && IsSyncOf(letters[j].message, host, ids, d)
  }

  // Every picked peer gets the hail and one sync for every readable device, and nobody gets
  // anything else.
  predicate HailsAll(
    letters: seq<Letter>, picked: seq<Peer>, hail: Message, host: Id, store: Devices, ids: seq<Id>)
  {
    && |letters| == |picked| * (1 + |Readables(store)|)
    && (forall j :: 0 <= j < |letters| ==> letters[j].peer in picked)
    && (forall j :: 0 <= j < |letters| ==>
          letters[j].message == hail || TellsSome(letters[j].message, host, store, ids))
    && (forall p :: p in picked ==> Letter(p, hail) in letters)
    && (forall p, id :: p in picked && id in Readables(store) ==> Hears(letters, p, host, store[id], ids))
  }

  lemma TailOfIds(m: Message, host: Id, d: Device, ids: seq<Id>, tail: seq<Id>)
    requires IsSyncOf(m, host, tail, d) && forall id :: id in tail ==> id in ids
    ensures IsSyncOf(m, host, ids, d)
  {
  }

  lemma BurstIsHeard(picked: seq<Peer>, hail: Message, batch: seq<Message>, p: Peer,
                     host: Id, d: Device, ids: seq<Id>, tail: seq<Id>)
    requires p in picked && IsTold(batch, host, d, tail) && forall id :: id in tail ==> id in ids
    ensures Hears(Burst(picked, [hail] + batch), p, host, d, ids)
  {
    var k :| 0 <= k < |batch| && IsSyncOf(batch[k], host, tail, d);
    BurstReaches(picked, [hail] + batch, p, k + 1);
    TailOfIds(batch[k], host, d, ids, tail);
    var letters := Burst(picked, [hail] + batch);
    var j :| 0 <= j < |letters| && letters[j] == Letter(p, batch[k]);
  }

  lemma HailOrSync(hail: Message, batch: seq<Message>, m: Message,
                   host: Id, store: Devices, ids: seq<Id>, tail: seq<Id>)
    requires TellsStore(batch, host, store, tail) && m in [hail] + batch && forall id :: id in tail ==> id in ids
    ensures m == hail || TellsSome(m, host, store, ids)
  {
    if m != hail {
      var k :| 0 <= k < |batch| && batch[k] == m;
      assert TellsSome(batch[k], host, store, tail);
      var id :| id in Readables(store) && IsSyncOf(m, host, tail, store[id]);
      TailOfIds(m, host, store[id], ids, tail);
    }
  }

  lemma BurstHails(picked: seq<Peer>, hail: Message, batch: seq<Message>,
                   host: Id, store: Devices, ids: seq<Id>, tail: seq<Id>)
    requires TellsStore(batch, host, store, tail) && DistinctIds(picked) && DistinctMessages([hail] + batch)
    requires forall id :: id in tail ==> id in ids
    ensures HailsAll(Burst(picked, [hail] + batch), picked, hail, host, store, ids)
  {
    var all := [hail] + batch;
    var letters := Burst(picked, all);
    BurstLength(picked, all);
    BurstMeans(picked, all);
    forall p | p in picked
      ensures Letter(p, hail) in letters
    {
      BurstReaches(picked, all, p, 0);
    }
    forall p, id | p in picked && id in Readables(store)
      ensures Hears(letters, p, host, store[id], ids)
    {
      BurstIsHeard(picked, hail, batch, p, host, store[id], ids, tail);
    }
    forall j | 0 <= j < |letters|
      ensures letters[j].message == hail || TellsSome(letters[j].message, host, store, ids)
    {
      HailOrSync(hail, batch, letters[j].message, host, store, ids, tail);
    }
  }

  // All peers if there are five at most, otherwise five of them.
  predicate FiveOf(picked: seq<Peer>, peers: Peers) {
    && |picked| == AtMostFive(|peers.Keys|) && DistinctIds(picked)
    && forall p :: p in picked ==> Listed(peers, p)
  }

  lemma HailSent(n: Node, c: Choice)
    requires KeyedStore(n.store) && DistinctSeq(c.ids) && Allowed(SendHail(n, c), c) && c.ids[0] !in n.cache
    ensures var o := SendHail(n, c);
            && Leaves(o, n, n.store, n.peers) && FiveOf(c.picked, n.peers)
            && HailsAll(o.letters, c.picked, Message(c.ids[0], n.host, 1, []), n.host, n.store, c.ids)
  {
    var tail, hail := c.ids[1..], Message(c.ids[0], n.host, 1, []);
    var batch := Batch(n, c.order, tail);
    FreshIsSafe(n, c.ids[0]);
    HailBatchGood(n, c);
    BatchTellsStore(n, c.order, tail);
    BurstHails(c.picked, hail, batch, n.host, n.store, c.ids, tail);
  }

  lemma FarewellSent(n: Node, c: Choice)
    requires OwnKeys(n.peers) && Allowed(SendFarewell(n, c), c) && c.ids[0] !in n.cache
    requires |n.peers| <= 0x7fff_ffff_ffff_ffff
    ensures var o := SendFarewell(n, c);
            && Leaves(o, n, n.store, n.peers) && |o.letters| == |n.peers|
            && forall p :: p in n.peers ==> Letter(n.peers[p], Message(c.ids[0], n.host, 5, [])) in o.letters
  {
    var o := SendFarewell(n, c);
    FreshIsSafe(n, c.ids[0]);
    assert |n.peers.Keys| == |n.peers|;
    forall p | p in n.peers
      ensures Letter(n.peers[p], Message(c.ids[0], n.host, 5, [])) in o.letters
    {
      var j := FarewellReachesAll(n, c, p);
    }
  }

  // ---- Stores and peer tables after any step ----

  predicate IsHandled(w: World, a: Action, at: Address) {
    && a.Deliver? && a.index < |w.air| && w.air[a.index].to == at && at in w.nodes
    && Dispatches(w.nodes[at], w.air[a.index].bytes)
  }

  lemma ReceiveLeaves(n: Node, from: Address, bytes: Bytes, c: Choice)
    ensures var o := Receive(n, from, bytes, c);
            var m := if Dispatches(n, bytes) then DecodeEnvelope(bytes) else Error;
            && o.node.peers == (if m.Ok? then PeersGiven(n.peers, from, m.value) else n.peers)
            && o.node.host == n.host && o.node.now == n.now
            && (KeyedStore(n.store) ==> Settled(o).store == if m.Ok? then StoreGiven(n, m.value) else n.store)
  {
    if Dispatches(n, bytes) {
      var m := DecodeEnvelope(bytes).value;
      ReceiveMeans(n, from, bytes, m, c);
      HandlingPeers(Holding(n, m), from, m, c);
      if KeyedStore(n.store) {
        HandlingStores(Holding(n, m), from, m, c);
        SameGiven(n, Holding(n, m), m);
      }
    }
  }

  lemma ActorBecomes(w: World, step: Step)
    requires Enabled(w, step) && ByNode(step.action)
    ensures var at, s := Actor(w, step.action), Settled(OutcomeOf(w, step));
            Do(w, step).nodes == w.nodes[at := s.(cache := Do(w, step).nodes[at].cache)]
  {
    AfterMeans(w, step);
    DoMeans(w, step);
  }

  lemma OutcomePeers(w: World, step: Step)
    requires Enabled(w, step) && ByNode(step.action)
    ensures var a, at := step.action, Actor(w, step.action);
            var peers, peers' := w.nodes[at].peers, OutcomeOf(w, step).node.peers;
            if a.Meet? then peers' == peers[a.peer.id := a.peer]
            else if IsHandled(w, a, at) then
              peers' == PeersGiven(peers, w.air[a.index].from, DecodeEnvelope(w.air[a.index].bytes).value)
            else peers' == peers
  {
    if step.action.Deliver? {
      var g := w.air[step.action.index];
      ReceiveLeaves(w.nodes[g.to], g.from, g.bytes, step.choice);
    }
  }

  // The peer table of every client after every step: it changes when a message is handled, when a
  // peer is added by hand, and when the client restarts.
  lemma PeersAfter(w: World, step: Step, at: Address)
    requires Enabled(w, step) && at in w.nodes
    ensures at in Do(w, step).nodes
    ensures var a, peers, peers' := step.action, w.nodes[at].peers, Do(w, step).nodes[at].peers;
            if a.Meet? && a.at == at then peers' == peers[a.peer.id := a.peer]
            else if a.Restart? && a.at == at then peers' == map[]
            else if IsHandled(w, a, at) then
              peers' == PeersGiven(peers, w.air[a.index].from, DecodeEnvelope(w.air[a.index].bytes).value)
            else peers' == peers
  {
    if ByNode(step.action) {
      ActorBecomes(w, step);
      OutcomePeers(w, step);
    }
  }

  // The store of every client after every step: it gains a device of version 0 under a new id when
  // one is created, and otherwise changes when a state is asked for or a message is handled.
  lemma StoreAfter(w: World, step: Step, at: Address)
    requires Enabled(w, step) && at in w.nodes && KeyedStore(w.nodes[at].store)
    ensures at in Do(w, step).nodes
    ensures var a, n, store' := step.action, w.nodes[at], Do(w, step).nodes[at].store;
            if a.Create? && a.at == at then
              && |step.choice.ids| == 1 && step.choice.ids[0] !in w.used
              && var id := step.choice.ids[0]; store' == n.store[id := Device(id, n.host, a.kind, a.state, 0)]
            else if a.Patch? && a.at == at then store' == Changed(n, a.device, a.state)
            else if IsHandled(w, a, at) then
              store' == StoreGiven(n, DecodeEnvelope(w.air[a.index].bytes).value)
            else store' == n.store
  {
    if ByNode(step.action) {
      ActorBecomes(w, step);
      if step.action.Patch? && step.action.at == at {
        RequestStores(w.nodes[step.action.at], step.action.device, step.action.state, step.choice);
      }
      if step.action.Deliver? {
        var g := w.air[step.action.index];
        ReceiveLeaves(w.nodes[g.to], g.from, g.bytes, step.choice);
      }
    }
  }

  // Names never change, a clock moves only when time passes, and a restart empties the cache.
  lemma RestAfter(w: World, step: Step, at: Address)
    requires Enabled(w, step) && at in w.nodes
    ensures Do(w, step).nodes.Keys == w.nodes.Keys && Do(w, step).nodes[at].host == w.nodes[at].host
    ensures Do(w, step).nodes[at].now ==
            if step.action.Tick? && step.action.at == at then step.action.time else w.nodes[at].now
    ensures step.action == Restart(at) ==> Do(w, step).nodes[at].cache == map[]
  {
    if ByNode(step.action) {
      ActorBecomes(w, step);
      if step.action.Deliver? {
        var g := w.air[step.action.index];
        ReceiveLeaves(w.nodes[g.to], g.from, g.bytes, step.choice);
      }
    }
  }

  // ---- What goes out in any step ----

  // Somebody asks this client for this state of this device: at the client itself, or by a patch
  // that it handles.
  predicate Requests(w: World, a: Action, at: Address, device: Id, state: Byte) {
    || a == Patch(at, device, state)
    || (IsHandled(w, a, at) &&
        var m := DecodeEnvelope(w.air[a.index].bytes).value; m.kind == 2 && DecodePatch(m.data) == Ok((device, state)))
  }

  lemma LeavesBecomes(w: World, step: Step, at: Address, store: Devices, peers: Peers)
    requires Enabled(w, step) && ByNode(step.action) && at == Actor(w, step.action)
    requires Leaves(OutcomeOf(w, step), w.nodes[at], store, peers)
    ensures Becomes(w, Do(w, step), at, store, peers)
  {
    ActorBecomes(w, step);
  }

  lemma LocalFacts(w: World, at: Address)
    requires Inv(w) && LogOk(w) && at in w.nodes
    ensures KeyedStore(w.nodes[at].store) && OwnKeys(w.nodes[at].peers) && ZERO_ID !in w.nodes[at].cache
    ensures forall id :: id in w.nodes[at].cache ==> id in w.used
  {
    assert NodeOk(w.ledger, w.nodes[at]);
  }

  lemma HandledFacts(w: World, step: Step, at: Address)
    requires Inv(w) && LogOk(w) && Enabled(w, step) && IsHandled(w, step.action, at)
    ensures var n, g, c := w.nodes[at], w.air[step.action.index], step.choice;
            var m := DecodeEnvelope(g.bytes).value;
            && OutcomeOf(w, step) == Dispatch(Holding(n, m), g.from, m, c)
            && Allowed(Dispatch(Holding(n, m), g.from, m, c), c)
            && KeyedStore(n.store) && ZERO_ID !in n.cache && m.id != ZERO_ID && !Known(n.cache, m.id, n.now)
            && DistinctSeq(c.ids) && forall id :: id in c.ids ==> id !in n.cache && id != m.id
  {
    var n, g, c := w.nodes[at], w.air[step.action.index], step.choice;
    assert DatagramOk(w, g) && NodeOk(w.ledger, n);
    ReceiveMeans(n, g.from, g.bytes, DecodeEnvelope(g.bytes).value, c);
  }

  // A step updates a device if and only if somebody asks its owner, who can read it.
  lemma UpdateIsRequested(w: World, step: Step, id: Id)
    requires Enabled(w, step) && ByNode(step.action)
    ensures var at := Actor(w, step.action);
            IsUpdate(w, step, id) <==>
            && (exists state :: Requests(w, step.action, at, id, state))
            && Mine(w.nodes[at], id) && id in Readables(w.nodes[at].store)
  {
    var at := Actor(w, step.action);
    if IsUpdate(w, step, id) {
      var a := step.action;
      var state := if a.Patch? then a.state else DecodePatch(DecodeEnvelope(w.air[a.index].bytes).value.data).value.1;
      assert Requests(w, a, at, id, state);
    }
  }

  // An update stores exactly the state asked for, with the next version, and tells just that.
  lemma UpdateEffect(w: World, step: Step, at: Address, id: Id, state: Byte)
    requires Inv(w) && LogOk(w) && Enabled(w, step) && at in w.nodes && Requests(w, step.action, at, id, state)
    requires Mine(w.nodes[at], id) && id in Readables(w.nodes[at].store)
    ensures var n, was, letters := w.nodes[at], w.nodes[at].store[id], OutcomeOf(w, step).letters;
            var version := if was.version == 0x7fff_ffff_ffff_ffff then -0x8000_0000_0000_0000 else was.version + 1;
            var d := Device(id, n.host, was.kind, state, version);
            && Becomes(w, Do(w, step), at, n.store[id := d], n.peers)
            && ToFive(letters, n.peers, n.peers.Keys)
            && forall j :: 0 <= j < |letters| ==> IsSyncOf(letters[j].message, n.host, step.choice.ids, d)
  {
    var n := w.nodes[at];
    LocalFacts(w, at);
    if step.action.Patch? {
      OwnPatch(n, id, state, step.choice);
    } else {
      HandledFacts(w, step, at);
      OwnPatchReceived(n, DecodeEnvelope(w.air[step.action.index].bytes).value, id, state, step.choice);
    }
    LeavesBecomes(w, step, at, Settled(OutcomeOf(w, step)).store, n.peers);
  }

  // A client that is asked for a device of somebody else's changes nothing. Asked by its user, it
  // asks others for exactly that under a new id; asked by a patch, it passes that patch on.
  lemma RequestEffect(w: World, step: Step, at: Address, device: Id, state: Byte)
    requires Inv(w) && LogOk(w) && Enabled(w, step) && at in w.nodes && Requests(w, step.action, at, device, state)
    requires !Mine(w.nodes[at], device)
    ensures var n, letters := w.nodes[at], OutcomeOf(w, step).letters;
            && Becomes(w, Do(w, step), at, n.store, n.peers) && ToFive(letters, n.peers, n.peers.Keys)
            && forall j :: 0 <= j < |letters| ==>
                 var m := letters[j].message;
                 if step.action.Patch? then
                   && m.kind == 2 && m.sender == n.host && DecodePatch(m.data) == Ok((device, state))
                   && m.id in step.choice.ids && m.id !in w.used
                 else m == DecodeEnvelope(w.air[step.action.index].bytes).value
  {
    var n := w.nodes[at];
    LocalFacts(w, at);
    if step.action.Patch? {
      ForeignPatch(n, device, state, step.choice);
    } else {
      HandledFacts(w, step, at);
      ForeignPatchReceived(n, DecodeEnvelope(w.air[step.action.index].bytes).value, device, state, step.choice);
    }
    LeavesBecomes(w, step, at, n.store, n.peers);
  }

  // A sync of somebody else's device: a newer one is saved and passed on to peers other than its
  // sender, one that is not is answered with one's own copy.
  lemma SyncEffect(w: World, step: Step, at: Address, m: Message, d: Device)
    requires Inv(w) && LogOk(w) && Enabled(w, step) && Handles(w, step.action, at, m)
    requires m.kind == 3 && DecodeSync(m.data) == Ok(d) && !Mine(w.nodes[at], d.id)
    requires HasNewer(w.nodes[at], d) ==> d.id in Readables(w.nodes[at].store)
    ensures var n, letters := w.nodes[at], OutcomeOf(w, step).letters;
            if HasNewer(n, d) then
              && Becomes(w, Do(w, step), at, n.store, n.peers) && ToFive(letters, n.peers, n.peers.Keys)
              && forall j :: 0 <= j < |letters| ==>
                   IsSyncOf(letters[j].message, n.host, step.choice.ids, n.store[d.id])
            else
              && Becomes(w, Do(w, step), at, n.store[d.id := d], n.peers)
              && ToFive(letters, n.peers, n.peers.Keys - {m.sender})
              && forall j :: 0 <= j < |letters| ==> letters[j].message == m
  {
    var n := w.nodes[at];
    HandledFacts(w, step, at);
    if HasNewer(n, d) {
      StaleSync(n, m, d, step.choice);
    } else {
      NewerSync(n, m, d, step.choice);
    }
    LeavesBecomes(w, step, at, Settled(OutcomeOf(w, step)).store, n.peers);
  }

  // A hail puts its sender in the peer table, at the address it came from, and brings it one sync
  // for every readable device.
  lemma HailEffect(w: World, step: Step, at: Address, m: Message)
    requires Inv(w) && LogOk(w) && Enabled(w, step) && Handles(w, step.action, at, m) && m.kind == 1
    ensures var n, letters := w.nodes[at], OutcomeOf(w, step).letters;
            var joiner := Peer(m.sender, w.air[step.action.index].from);
            && Becomes(w, Do(w, step), at, n.store, n.peers[m.sender := joiner])
            && TellsStore(MessagesOf(letters), n.host, n.store, step.choice.ids)
            && forall j :: 0 <= j < |letters| ==> letters[j].peer == joiner
  {
    HandledFacts(w, step, at);
    HailReceived(w.nodes[at], w.air[step.action.index].from, m, step.choice);
    LeavesBecomes(w, step, at, w.nodes[at].store, Settled(OutcomeOf(w, step)).peers);
  }

  // Joining: up to five peers get the hail and one sync for every readable device.
  lemma JoinEffect(w: World, step: Step, at: Address)
    requires Inv(w) && LogOk(w) && Enabled(w, step) && step.action == Hail(at)
    ensures var n, c, letters := w.nodes[at], step.choice, OutcomeOf(w, step).letters;
            && c.ids != [] && Becomes(w, Do(w, step), at, n.store, n.peers) && FiveOf(c.picked, n.peers)
            && HailsAll(letters, c.picked, Message(c.ids[0], n.host, 1, []), n.host, n.store, c.ids)
  {
    LocalFacts(w, at);
    HailSent(w.nodes[at], step.choice);
    LeavesBecomes(w, step, at, w.nodes[at].store, w.nodes[at].peers);
  }

  // Leaving: every peer gets the farewell, once.
  lemma LeaveEffect(w: World, step: Step, at: Address)
    requires Inv(w) && LogOk(w) && Enabled(w, step) && step.action == Farewell(at)
    requires |w.nodes[at].peers| <= 0x7fff_ffff_ffff_ffff
    ensures var n, c, letters := w.nodes[at], step.choice, OutcomeOf(w, step).letters;
            && |c.ids| == 1 && Becomes(w, Do(w, step), at, n.store, n.peers) && |letters| == |n.peers|
            && forall p :: p in n.peers ==> Letter(n.peers[p], Message(c.ids[0], n.host, 5, [])) in letters
  {
    LocalFacts(w, at);
    FarewellSent(w.nodes[at], step.choice);
    LeavesBecomes(w, step, at, w.nodes[at].store, w.nodes[at].peers);
  }

  // ---- When nothing goes out ----

  predicate Silent(n: Node, m: Message) {
    if m.kind == 1 then false
    else if m.kind == 2 && DecodePatch(m.data).Ok? then
      var device := DecodePatch(m.data).value.0; Mine(n, device) && device !in Readables(n.store)
    else if m.kind == 3 && DecodeSync(m.data).Ok? then
      var d := DecodeSync(m.data).value;
      Mine(n, d.id) || (HasNewer(n, d) && d.id !in Readables(n.store))
    else true
  }

  lemma HandlingSilent(n: Node, from: Address, m: Message, c: Choice)
    requires Silent(n, m) && Allowed(Dispatch(Holding(n, m), from, m, c), c)
    ensures Dispatch(Holding(n, m), from, m, c).letters == [] && c.ids == []
  {
  }

  // Everything else a client does or gets makes it send nothing.
  lemma NothingGoesOut(w: World, step: Step, at: Address)
    requires Enabled(w, step) && ByNode(step.action) && at == Actor(w, step.action)
    requires var a, n := step.action, w.nodes[at];
             || a.Create? || a.Meet? || a.Tick?
             || (a.Patch? && Mine(n, a.device) && a.device !in Readables(n.store))
             || (a.Deliver? && (IsHandled(w, a, at) ==> Silent(n, DecodeEnvelope(w.air[a.index].bytes).value)))
    ensures OutcomeOf(w, step).letters == [] && (!step.action.Create? ==> step.choice.ids == [])
  {
    if IsHandled(w, step.action, at) {
      var g := w.air[step.action.index];
      var m := DecodeEnvelope(g.bytes).value;
      ReceiveMeans(w.nodes[at], g.from, g.bytes, m, step.choice);
      HandlingSilent(w.nodes[at], g.from, m, step.choice);
    }
  }

  // ---- What the letters become ----

  // The datagrams of a step are its letters that could be sent, in order: from the acting client's
  // address to the peer's, the message's id, type, sender and payload one after the other. A
  // delivery takes its own datagram away; whatever else was in flight still is.
  lemma SentExactly(w: World, step: Step)
    requires Enabled(w, step) && ByNode(step.action)
    ensures var a, letters, oks := step.action, OutcomeOf(w, step).letters, step.oks;
            var left := if a.Deliver? then w.air[..a.index] + w.air[a.index + 1..] else w.air;
            var air := Do(w, step).air;
            && |air| == |left| + Successes(oks) && air[..|left|] == left
            && forall j :: 0 <= j < |letters| && oks[j] ==>
                 var m := letters[j].message;
                 && Successes(oks[..j]) < Successes(oks)
                 && air[|left| + Successes(oks[..j])] ==
                    Datagram(Actor(w, a), letters[j].peer.address, m.id.raw + [m.kind] + m.sender.raw + m.data)
  {
    DatagramsExact(Actor(w, step.action), OutcomeOf(w, step).letters, step.oks);
  }

  // ---- Who stays in the peer table ----

  // The step may change what this client has in its peer table under this id.
  predicate Touches(w: World, a: Action, at: Address, id: Id) {
    || (a.Meet? && a.at == at && a.peer.id == id)
    || a == Restart(at)
    || (IsHandled(w, a, at) &&
        var m := DecodeEnvelope(w.air[a.index].bytes).value;
        || (m.kind in {1, 4, 5} && m.sender == id)
        || (m.kind == 4 && DecodePeer(m.data).Ok? && DecodePeer(m.data).value.id == id))
  }

  ghost predicate Untouched(w: World, steps: seq<Step>, at: Address, id: Id)
    requires Run(w, steps)
    decreases |steps|
  {
    steps == [] || (!Touches(w, steps[0].action, at, id) && Untouched(Do(w, steps[0]), steps[1..], at, id))
  }

  lemma EntryStays(w: World, step: Step, at: Address, id: Id)
    requires Enabled(w, step) && at in w.nodes && !Touches(w, step.action, at, id)
    ensures at in Do(w, step).nodes
    ensures var peers, peers' := w.nodes[at].peers, Do(w, step).nodes[at].peers;
            (id in peers' <==> id in peers) && (id in peers ==> peers'[id] == peers[id])
  {
    PeersAfter(w, step, at);
  }

  lemma {:induction false} EntryStaysOverRun(w: World, steps: seq<Step>, at: Address, id: Id)
    requires Run(w, steps) && at in w.nodes && Untouched(w, steps, at, id)
    ensures at in End(w, steps).nodes
    ensures var peers, peers' := w.nodes[at].peers, End(w, steps).nodes[at].peers;
            (id in peers' <==> id in peers) && (id in peers ==> peers'[id] == peers[id])
    decreases |steps|
  {
    if steps == [] {
    } else {
      EntryStays(w, steps[0], at, id);
      EntryStaysOverRun(Do(w, steps[0]), steps[1..], at, id);
    }
  }

  // Whoever has hailed a client stays in its peer table, at the address the hail came from, and
  // whoever has said farewell stays out of it, until another message of that sender's is handled, a
  // peer is added under that id, or the client restarts.
  lemma HailedStays(w: World, step: Step, rest: seq<Step>, at: Address, m: Message)
    requires Enabled(w, step) && Handles(w, step.action, at, m) && m.kind in {1, 5}
    requires Run(Do(w, step), rest) && Untouched(Do(w, step), rest, at, m.sender)
    ensures at in End(Do(w, step), rest).nodes
    ensures var peers := End(Do(w, step), rest).nodes[at].peers;
            if m.kind == 1 then Listed(peers, Peer(m.sender, w.air[step.action.index].from)) else m.sender !in peers
  {
    PeersAfter(w, step, at);
    EntryStaysOverRun(Do(w, step), rest, at, m.sender);
  }
}
