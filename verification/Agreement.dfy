// Single-writer agreement: every copy of a device, stored or in flight, is something its owner's
// store held at that version, and nothing is ever ahead of the owner.
module Agreement {
  import opened Entity
  import opened Wire
  import opened PeerCache
  import opened Protocol
  import opened Letters
  import opened Network

  type Ledger = map<Id, seq<Device>>

  // The owner's store held exactly this at that version.
  predicate Backed(ledger: Ledger, d: Device) {
    d.id in ledger && 0 <= d.version < |ledger[d.id]| && ledger[d.id][d.version] == d
  }

  predicate Latest(ledger: Ledger, d: Device) {
    d.id in ledger && d.version == |ledger[d.id]| - 1
  }

  ghost predicate LedgerOk(ledger: Ledger) {
    && (forall id :: id in ledger ==> 0 < |ledger[id]| <= TWO_63)
    && (forall id, v {:trigger Entry(ledger, id, v)} :: id in ledger && 0 <= v < |ledger[id]| ==> Entry(ledger, id, v))
  }

  predicate Entry(ledger: Ledger, id: Id, v: int)
    requires id in ledger && 0 <= v < |ledger[id]|
  {
    var e, first := ledger[id][v], ledger[id][0];
    e.id == id && e.version == v && e.owner == first.owner && e.kind == first.kind
  }

  ghost predicate NodeOk(ledger: Ledger, n: Node) {
    && OwnKeys(n.peers)
    && KeyedStore(n.store)
    && (forall id {:trigger CopyOk(ledger, n, id)} :: id in n.store ==> CopyOk(ledger, n, id))
  }

  predicate CopyOk(ledger: Ledger, n: Node, id: Id)
    requires id in n.store
  {
    Backed(ledger, n.store[id]) && (n.store[id].owner == n.host ==> Latest(ledger, n.store[id]))
  }

  predicate MessageOk(ledger: Ledger, m: Message) {
    && m.kind in {HAIL, PATCH, SYNC, FAREWELL}
    && (m.kind == PATCH ==> DecodePatch(m.data).Ok?)
    && (m.kind == SYNC ==> DecodeSync(m.data).Ok? && Backed(ledger, DecodeSync(m.data).value))
  }

  predicate DatagramOk(w: World, g: Datagram) {
    && DecodeEnvelope(g.bytes).Ok?
    && DecodeEnvelope(g.bytes).value.id in w.used && DecodeEnvelope(g.bytes).value.id != ZERO_ID
    && MessageOk(w.ledger, DecodeEnvelope(g.bytes).value)
  }

  ghost predicate OwnerPresent(w: World, id: Id)
    requires id in w.ledger && 0 < |w.ledger[id]|
  {
    exists at :: at in w.nodes && w.nodes[at].host == w.ledger[id][0].owner && id in w.nodes[at].store
  }

  ghost predicate Inv(w: World) {
    && DistinctHosts(w)
    && LedgerOk(w.ledger)
    && ZERO_ID in w.used && ZERO_ID !in w.ledger
    && (forall id :: id in w.ledger ==> id in w.used && OwnerPresent(w, id))
    && (forall at :: at in w.nodes ==> NodeOk(w.ledger, w.nodes[at]))
    && (forall g :: g in w.air ==> DatagramOk(w, g))
  }

  lemma InitInv(w: World)
    requires Init(w)
    ensures Inv(w)
  {
  }

  // ---- One turn of one client ----

  // All that matters about a step: what the acting client saved, from which message, and how it
  // looks before and after.
  datatype Turn = Turn(
    at: Address, before: Node, after: Node, saved: Option<Device>, received: Option<Message>, drawn: set<Id>)

  function TurnOf(w: World, step: Step): Turn
    requires Placed(w, step.action) && ByNode(step.action)
    requires |step.oks| == |OutcomeOf(w, step).letters|
  {
    Turn(Actor(w, step.action), w.nodes[Actor(w, step.action)], After(w, step), OutcomeOf(w, step).saved,
         Received(w, step.action), IdSet(step.choice.ids))
  }

  predicate IsCreation(n: Node, d: Device, drawn: set<Id>) {
    d.owner == n.host && d.version == 0 && d.id in drawn
  }

  predicate IsBump(n: Node, d: Device) {
    Owns(n, d.id) && CanRead(n, d.id) && d == Bumped(n.store[d.id], d.state)
  }

  predicate IsCopy(n: Node, d: Device, received: Option<Message>) {
    && !Owns(n, d.id) && IsNewer(n, d.id, d.version)
    && received.Some? && received.value.kind == SYNC && DecodeSync(received.value.data) == Ok(d)
  }

  // A client saves its own new device, a bumped version of its own device, or a newer copy of a
  // device that is not its own. Nothing else.
  predicate SavesWell(n: Node, saved: Option<Device>, received: Option<Message>, drawn: set<Id>) {
    saved.Some? ==> IsCreation(n, saved.value, drawn) || IsBump(n, saved.value) || IsCopy(n, saved.value, received)
  }

  ghost predicate Fits(w: World, t: Turn) {
    && t.at in w.nodes && t.before == w.nodes[t.at]
    && t.after.host == t.before.host
    && t.after.store == Saved(t.before.store, t.saved)
    && (OwnKeys(t.before.peers) ==> OwnKeys(t.after.peers))
    && SavesWell(t.before, t.saved, t.received, t.drawn)
    && t.drawn !! w.used
    && (t.received.Some? ==> MessageOk(w.ledger, t.received.value))
  }

  ghost predicate Plain(n: Node, o: Outcome) {
    && o.node.host == n.host && o.node.store == n.store && n.now <= o.node.now
    && (OwnKeys(n.peers) ==> OwnKeys(o.node.peers))
  }

  lemma SaveStateSaves(n: Node, m: Message, c: Choice)
    requires KeyedStore(n.store)
    ensures Plain(n, SaveState(n, m, c)) && SavesWell(n, SaveState(n, m, c).saved, Some(m), {})
  {
  }

  lemma SaveDeviceSaves(n: Node, m: Message, c: Choice)
    requires KeyedStore(n.store) && m.kind == SYNC
    ensures Plain(n, SaveDevice(n, m, c)) && SavesWell(n, SaveDevice(n, m, c).saved, Some(m), {})
  {
  }

  lemma DispatchSaves(n: Node, from: Address, m: Message, c: Choice)
    requires KeyedStore(n.store)
    ensures Plain(n, Dispatch(n, from, m, c))
    ensures SavesWell(n, Dispatch(n, from, m, c).saved, Some(m), {})
  {
    if m.kind == PATCH {
      SaveStateSaves(n, m, c);
    } else if m.kind == SYNC {
      SaveDeviceSaves(n, m, c);
    }
  }

  lemma ReceiveSaves(n: Node, from: Address, bytes: Bytes, c: Choice)
    requires KeyedStore(n.store)
    ensures Plain(n, Receive(n, from, bytes, c))
    ensures SavesWell(n, Receive(n, from, bytes, c).saved,
                      if Dispatches(n, bytes) then Some(DecodeEnvelope(bytes).value) else None, {})
  {
    if Dispatches(n, bytes) {
      var m := DecodeEnvelope(bytes).value;
      ReceiveMeans(n, from, bytes, m, c);
      DispatchSaves(Quarantined(Swept(n), m.id, m.sender), from, m, c);
    }
  }

  lemma OutcomeSaves(w: World, step: Step)
    requires Enabled(w, step) && ByNode(step.action) && KeyedStore(w.nodes[Actor(w, step.action)].store)
    ensures Plain(w.nodes[Actor(w, step.action)], OutcomeOf(w, step))
    ensures SavesWell(w.nodes[Actor(w, step.action)], OutcomeOf(w, step).saved, Received(w, step.action),
                      IdSet(step.choice.ids))
  {
    if step.action.Deliver? {
      var g := w.air[step.action.index];
      ReceiveSaves(w.nodes[g.to], g.from, g.bytes, step.choice);
    }
  }

  lemma AfterMeans(w: World, step: Step)
    requires Enabled(w, step) && ByNode(step.action)
    ensures After(w, step) == Settled(OutcomeOf(w, step)).(cache := After(w, step).cache)
  {
    PostedKeeps(Settled(OutcomeOf(w, step)), OutcomeOf(w, step).letters, step.oks);
  }

  lemma TurnFits(w: World, step: Step)
    requires Inv(w) && Enabled(w, step) && ByNode(step.action)
    ensures Fits(w, TurnOf(w, step))
  {
    OutcomeSaves(w, step);
    AfterMeans(w, step);
    if step.action.Deliver? {
      assert DatagramOk(w, w.air[step.action.index]);
    }
  }

  // ---- How the ledger grows ----

  // At most one entry is added, at the end of one device's history.
  ghost predicate Extends(l: Ledger, l': Ledger, g: Option<Device>) {
    if g.None? then l' == l
    else
      var d, past := g.value, History(l, g.value.id);
      && l' == l[d.id := past + [d]]
      && d.version == |past|
      && (past != [] ==> d.owner == past[0].owner && d.kind == past[0].kind)
  }

  function Gain(t: Turn): Option<Device> {
    if t.saved.Some? && OwnWrite(t.before, t.after, t.saved.value.id) then t.saved else None
  }

  function Grown(w: World, t: Turn): Ledger {
    Recorded(w.ledger, t.before, t.after)
  }

  predicate HasRoom(l: Ledger) {
    forall id :: id in l ==> |l[id]| <= TWO_63
  }

  lemma GrownMeans(w: World, t: Turn)
    requires Fits(w, t)
    ensures Grown(w, t) ==
            if Gain(t).Some? then w.ledger[t.saved.value.id := History(w.ledger, t.saved.value.id) + [t.saved.value]]
            else w.ledger
  {
  }

  // A copy that arrives never claims to be one's own: the owner has the device in its store.
  lemma CopyIsForeign(w: World, at: Address, d: Device)
    requires Inv(w) && at in w.nodes && Backed(w.ledger, d) && !Owns(w.nodes[at], d.id)
    ensures d.owner != w.nodes[at].host
  {
    assert Entry(w.ledger, d.id, d.version);
    assert OwnerPresent(w, d.id);
    var home :| home in w.nodes && w.nodes[home].host == w.ledger[d.id][0].owner && d.id in w.nodes[home].store;
    assert CopyOk(w.ledger, w.nodes[home], d.id);
    assert Entry(w.ledger, d.id, w.nodes[home].store[d.id].version);
  }

  // A new version is the next one, unless the version counter is exhausted.
  lemma BumpIsNext(w: World, t: Turn)
    requires Inv(w) && Fits(w, t) && t.saved.Some? && IsBump(t.before, t.saved.value)
    ensures var was := t.before.store[t.saved.value.id];
            && was.id == t.saved.value.id && Latest(w.ledger, was)
            && t.saved.value.owner == w.ledger[was.id][0].owner
            && t.saved.value.kind == w.ledger[was.id][0].kind
  {
    var was := t.before.store[t.saved.value.id];
    assert CopyOk(w.ledger, t.before, was.id);
    assert Entry(w.ledger, was.id, was.version);
  }

  lemma GainExtends(w: World, t: Turn)
    requires Inv(w) && Fits(w, t) && HasRoom(Grown(w, t))
    ensures Extends(w.ledger, Grown(w, t), Gain(t))
  {
    GrownMeans(w, t);
    if Gain(t).Some? {
      var d := t.saved.value;
      assert |Grown(w, t)[d.id]| <= TWO_63;
      if IsBump(t.before, d) {
        BumpIsNext(w, t);
      } else if IsCopy(t.before, d, t.received) {
        CopyIsForeign(w, t.at, d);
        assert false;
      }
    }
  }

  // ---- Preservation ----

  lemma ExtendsKeepsBacked(l: Ledger, l': Ledger, g: Option<Device>, d: Device)
    requires Extends(l, l', g) && Backed(l, d)
    ensures Backed(l', d)
  {
  }

  lemma ExtendsKeepsOk(l: Ledger, l': Ledger, g: Option<Device>)
    requires Extends(l, l', g) && LedgerOk(l) && HasRoom(l')
    ensures LedgerOk(l')
  {
    forall id, v | id in l' && 0 <= v < |l'[id]|
      ensures Entry(l', id, v)
    {
      if id in l && v < |l[id]| {
        assert Entry(l, id, v);
      }
    }
  }

  lemma ExtendsKeepsMessage(l: Ledger, l': Ledger, g: Option<Device>, m: Message)
    requires Extends(l, l', g) && MessageOk(l, m)
    ensures MessageOk(l', m)
  {
  }

  lemma BystanderIsNotOwner(w: World, t: Turn, at: Address, id: Id)
    requires Inv(w) && Fits(w, t) && HasRoom(Grown(w, t))
    requires at in w.nodes && at != t.at && id in w.nodes[at].store
    requires Gain(t).Some? && t.saved.value.id == id
    ensures w.nodes[at].store[id].owner != w.nodes[at].host
  {
    GainExtends(w, t);
    assert CopyOk(w.ledger, w.nodes[at], id);
    assert Entry(w.ledger, id, w.nodes[at].store[id].version);
  }

  // Clients that did not act still agree, and none of them owns what was added.
  lemma BystanderOk(w: World, t: Turn, at: Address)
    requires Inv(w) && Fits(w, t) && HasRoom(Grown(w, t))
    requires at in w.nodes && at != t.at
    ensures NodeOk(Grown(w, t), w.nodes[at])
  {
    var n, l, l' := w.nodes[at], w.ledger, Grown(w, t);
    GainExtends(w, t);
    forall id | id in n.store
      ensures CopyOk(l', n, id)
    {
      assert CopyOk(l, n, id);
      ExtendsKeepsBacked(l, l', Gain(t), n.store[id]);
      if Gain(t).Some? && t.saved.value.id == id {
        BystanderIsNotOwner(w, t, at, id);
      }
    }
  }

  lemma SavedIsCopy(w: World, t: Turn)
    requires Inv(w) && Fits(w, t) && t.saved.Some? && Gain(t).None?
    ensures IsCopy(t.before, t.saved.value, t.received)
  {
    var d := t.saved.value;
    assert t.after.store[d.id] == d;
    assert d.id in t.before.store ==> CopyOk(w.ledger, t.before, d.id);
  }

  // What is saved without being a new version of one's own was backed before.
  lemma SavedBacked(w: World, t: Turn)
    requires Inv(w) && Fits(w, t) && t.saved.Some? && Gain(t).None?
    ensures Backed(w.ledger, t.saved.value)
    ensures t.saved.value.owner != t.before.host
  {
    SavedIsCopy(w, t);
    CopyIsForeign(w, t.at, t.saved.value);
  }

  lemma ActorOk(w: World, t: Turn)
    requires Inv(w) && Fits(w, t) && HasRoom(Grown(w, t))
    ensures NodeOk(Grown(w, t), t.after)
  {
    var l, l' := w.ledger, Grown(w, t);
    GainExtends(w, t);
    forall id | id in t.after.store
      ensures t.after.store[id].id == id && CopyOk(l', t.after, id)
    {
      if t.saved.Some? && t.saved.value.id == id {
        if Gain(t).None? {
          SavedBacked(w, t);
        }
      } else {
        assert CopyOk(l, t.before, id);
        ExtendsKeepsBacked(l, l', Gain(t), t.before.store[id]);
      }
    }
  }

  lemma FirstWriteIsCreation(w: World, t: Turn)
    requires Inv(w) && Fits(w, t) && Gain(t).Some? && t.saved.value.id !in w.ledger
    ensures IsCreation(t.before, t.saved.value, t.drawn)
  {
    var id := t.saved.value.id;
    assert id in t.before.store ==> CopyOk(w.ledger, t.before, id);
  }

  lemma OwnersStay(w: World, t: Turn, w': World, id: Id)
    requires Inv(w) && Fits(w, t) && HasRoom(Grown(w, t)) && id in Grown(w, t)
    requires w'.nodes == w.nodes[t.at := t.after] && w'.ledger == Grown(w, t) && w'.used == w.used + t.drawn
    ensures id in w'.used
    ensures |w'.ledger[id]| > 0 && OwnerPresent(w', id)
  {
    GainExtends(w, t);
    if id in w.ledger {
      assert OwnerPresent(w, id);
      var home :| home in w.nodes && w.nodes[home].host == w.ledger[id][0].owner && id in w.nodes[home].store;
      assert home in w'.nodes && w'.nodes[home].host == w'.ledger[id][0].owner && id in w'.nodes[home].store;
    } else {
      FirstWriteIsCreation(w, t);
      assert t.at in w'.nodes && w'.nodes[t.at].host == w'.ledger[id][0].owner && id in w'.nodes[t.at].store;
    }
  }

  lemma GenuineOk(l: Ledger, s: Node, ids: seq<Id>, m: Message)
    requires Genuine(s, ids, m) && NodeOk(l, s)
    ensures MessageOk(l, m)
  {
    if m.kind == SYNC {
      assert CopyOk(l, s, DecodeSync(m.data).value.id);
    }
  }

  lemma SameStoreOk(l: Ledger, n: Node, s: Node)
    requires NodeOk(l, n) && n == s.(cache := n.cache)
    ensures NodeOk(l, s)
  {
    forall id | id in s.store
      ensures CopyOk(l, s, id)
    {
      assert CopyOk(l, n, id);
    }
  }

  lemma LettersOk(w: World, t: Turn, s: Node, letters: seq<Letter>, ids: seq<Id>)
    requires Inv(w) && Fits(w, t) && HasRoom(Grown(w, t))
    requires t.after == s.(cache := t.after.cache) && t.drawn == IdSet(ids)
    requires
      || AllGenuine(s, ids, letters)
      || (t.received.Some? && t.received.value.id in w.used - {ZERO_ID} && AllRelay(t.received.value, letters))
    ensures forall j :: 0 <= j < |letters| ==>
              MessageOk(Grown(w, t), letters[j].message) && letters[j].message.id in w.used + t.drawn - {ZERO_ID}
  {
    ActorOk(w, t);
    SameStoreOk(Grown(w, t), t.after, s);
    GainExtends(w, t);
    forall j | 0 <= j < |letters|
      ensures MessageOk(Grown(w, t), letters[j].message) && letters[j].message.id in w.used + t.drawn - {ZERO_ID}
    {
      if AllGenuine(s, ids, letters) {
        assert Genuine(s, ids, letters[j].message);
        GenuineOk(Grown(w, t), s, ids, letters[j].message);
      } else {
        ExtendsKeepsMessage(w.ledger, Grown(w, t), Gain(t), t.received.value);
      }
    }
  }

  lemma SentOk(w: World, step: Step)
    requires Inv(w) && Enabled(w, step) && ByNode(step.action) && HasRoom(Do(w, step).ledger)
    ensures var sent := Datagrams(Actor(w, step.action), OutcomeOf(w, step).letters, step.oks);
            forall g :: g in sent ==> DatagramOk(Do(w, step), g)
  {
    var o, t := OutcomeOf(w, step), TurnOf(w, step);
    if step.action.Deliver? {
      assert DatagramOk(w, w.air[step.action.index]);
    }
    TurnFits(w, step);
    StepGood(w, step);
    AfterMeans(w, step);
    LettersOk(w, t, Settled(o), o.letters, step.choice.ids);
    DatagramsMean(t.at, o.letters, step.oks);
  }

  lemma FlyingOk(w: World, t: Turn, w': World, g: Datagram)
    requires Inv(w) && Fits(w, t) && HasRoom(Grown(w, t)) && DatagramOk(w, g)
    requires w'.ledger == Grown(w, t) && w.used <= w'.used
    ensures DatagramOk(w', g)
  {
  }

  lemma AirOk(w: World, step: Step)
    requires Inv(w) && Enabled(w, step) && ByNode(step.action) && HasRoom(Do(w, step).ledger)
    ensures forall g :: g in Do(w, step).air ==> DatagramOk(Do(w, step), g)
  {
    TurnFits(w, step);
    SentOk(w, step);
    AirMeans(w, step);
    forall g | g in w.air
      ensures DatagramOk(Do(w, step), g)
    {
      FlyingOk(w, TurnOf(w, step), Do(w, step), g);
    }
  }

  lemma ZeroStaysOut(w: World, t: Turn)
    requires Inv(w) && Fits(w, t)
    ensures ZERO_ID !in Grown(w, t)
  {
    GrownMeans(w, t);
    if Gain(t).Some? && t.saved.value.id !in w.ledger {
      FirstWriteIsCreation(w, t);
    }
  }

  lemma NodesOk(w: World, t: Turn, w': World)
    requires Inv(w) && Fits(w, t) && HasRoom(Grown(w, t))
    requires w'.nodes == w.nodes[t.at := t.after] && w'.ledger == Grown(w, t) && w'.used == w.used + t.drawn
    ensures DistinctHosts(w') && LedgerOk(w'.ledger) && ZERO_ID in w'.used && ZERO_ID !in w'.ledger
    ensures forall id :: id in w'.ledger ==> id in w'.used && OwnerPresent(w', id)
    ensures forall at :: at in w'.nodes ==> NodeOk(w'.ledger, w'.nodes[at])
  {
    GainExtends(w, t);
    ExtendsKeepsOk(w.ledger, w'.ledger, Gain(t));
    ZeroStaysOut(w, t);
    forall id | id in w'.ledger
      ensures id in w'.used && OwnerPresent(w', id)
    {
      OwnersStay(w, t, w', id);
    }
    forall at | at in w'.nodes
      ensures NodeOk(w'.ledger, w'.nodes[at])
    {
      if at == t.at {
        ActorOk(w, t);
      } else {
        BystanderOk(w, t, at);
      }
    }
  }

  lemma NodeStepInv(w: World, step: Step)
    requires Inv(w) && Enabled(w, step) && ByNode(step.action) && HasRoom(Do(w, step).ledger)
    ensures Inv(Do(w, step))
  {
    var t, w' := TurnOf(w, step), Do(w, step);
    TurnFits(w, step);
    DoMeans(w, step);
    NodesOk(w, t, w');
    AirOk(w, step);
  }

  lemma DoMeans(w: World, step: Step)
    requires Enabled(w, step) && ByNode(step.action)
    ensures var t, w' := TurnOf(w, step), Do(w, step);
            && w'.nodes == w.nodes[t.at := t.after] && w'.ledger == Grown(w, t) && w'.used == w.used + t.drawn
  {
  }

  // Losing and repeating datagrams and restarting clients changes nothing that agreement is about.
  lemma SameStoresInv(w: World, w': World)
    requires Inv(w)
    requires w'.nodes.Keys == w.nodes.Keys && w'.ledger == w.ledger && w'.used == w.used
    requires forall at :: at in w.nodes ==> w'.nodes[at] == w.nodes[at] || w'.nodes[at] == Restarted(w.nodes[at])
    requires forall g :: g in w'.air ==> g in w.air
    ensures Inv(w')
  {
    forall id | id in w'.ledger
      ensures OwnerPresent(w', id)
    {
      assert OwnerPresent(w, id);
      var home :| home in w.nodes && w.nodes[home].host == w.ledger[id][0].owner && id in w.nodes[home].store;
      assert home in w'.nodes && w'.nodes[home].host == w'.ledger[id][0].owner && id in w'.nodes[home].store;
    }
    forall at | at in w'.nodes
      ensures NodeOk(w'.ledger, w'.nodes[at])
    {
      assert NodeOk(w.ledger, w.nodes[at]);
      forall id | id in w'.nodes[at].store
        ensures CopyOk(w'.ledger, w'.nodes[at], id)
      {
        assert CopyOk(w.ledger, w.nodes[at], id);
      }
    }
    forall g | g in w'.air
      ensures DatagramOk(w', g)
    {
      assert DatagramOk(w, g);
    }
  }

  lemma StepInv(w: World, step: Step)
    requires Inv(w) && Enabled(w, step) && HasRoom(Do(w, step).ledger)
    ensures Inv(Do(w, step))
  {
    if ByNode(step.action) {
      NodeStepInv(w, step);
    } else {
      SameStoresInv(w, Do(w, step));
    }
  }
}
