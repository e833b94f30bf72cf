// A joining client hails a peer, the peer salutes with one sync per device it can read, and once
// these syncs have been handled the joiner is as far as the peer was.
module CatchUp {
  import opened Entity
  import opened Wire
  import opened Protocol
  import opened Letters
  import opened Network
  import opened Agreement
  import opened Runs

  // The client has the device, at this version or a later one.
  predicate AtLeast(w: World, at: Address, id: Id, version: Int64) {
    at in w.nodes && id in w.nodes[at].store && version <= w.nodes[at].store[id].version
  }

  // The step delivers exactly this message to this client, which is not holding it in quarantine.
  predicate Handles(w: World, a: Action, at: Address, m: Message) {
    && a.Deliver? && a.index < |w.air| && w.air[a.index].to == at && at in w.nodes
    && DecodeEnvelope(w.air[a.index].bytes) == Ok(m)
    && Dispatches(w.nodes[at], w.air[a.index].bytes)
  }

  ghost predicate HandledIn(w: World, steps: seq<Step>, at: Address, m: Message)
    requires Run(w, steps)
    decreases |steps|
  {
    steps != [] && (Handles(w, steps[0].action, at, m) || HandledIn(Do(w, steps[0]), steps[1..], at, m))
  }

  // ---- The salute ----

  lemma SaluteLetters(n: Node, from: Address, bytes: Bytes, m: Message, c: Choice)
    requires DecodeEnvelope(bytes) == Ok(m) && Dispatches(n, bytes) && m.kind == HAIL
    ensures var held := Quarantined(Swept(n), m.id, m.sender);
            && Receive(n, from, bytes, c) == SaluteOnHail(held, from, m, c)
            && Receive(n, from, bytes, c).letters == ToOne(Peer(m.sender, from), Batch(held, c.order, c.ids))
  {
  }

  // Every device the replier can read is in the salute, as it is at that moment.
  lemma SaluteCovers(w: World, step: Step, replier: Address, hail: Message, id: Id) returns (k: nat)
    requires Inv(w) && Enabled(w, step) && Handles(w, step.action, replier, hail) && hail.kind == HAIL
    requires CanRead(w.nodes[replier], id)
    ensures k < |OutcomeOf(w, step).letters|
    ensures var m := OutcomeOf(w, step).letters[k].message;
            m.kind == SYNC && DecodeSync(m.data) == Ok(w.nodes[replier].store[id])
    ensures OutcomeOf(w, step).letters[k].peer.id == hail.sender
    ensures OutcomeOf(w, step).letters[k].peer.address == w.air[step.action.index].from
  {
    var n, g, c := w.nodes[replier], w.air[step.action.index], step.choice;
    var held := Quarantined(Swept(n), hail.id, hail.sender);
    SaluteLetters(n, g.from, g.bytes, hail, c);
    k := BatchCovers(held, c.order, c.ids, id);
    SyncDecodes(n.store[id]);
  }

  // ---- Handling one sync ----

  // Whether it is saved, or nothing newer, or one's own: afterwards the client is not behind it.
  lemma SyncCatchesUp(n: Node, m: Message, c: Choice, d: Device)
    requires DecodeSync(m.data) == Ok(d) && (Owns(n, d.id) ==> d.version <= n.store[d.id].version)
    ensures var store := Settled(SaveDevice(n, m, c)).store; d.id in store && d.version <= store[d.id].version
  {
  }

  lemma OwnerIsAhead(w: World, at: Address, d: Device)
    requires Inv(w) && at in w.nodes && Backed(w.ledger, d) && Owns(w.nodes[at], d.id)
    ensures d.version <= w.nodes[at].store[d.id].version
  {
    assert CopyOk(w.ledger, w.nodes[at], d.id);
  }

  lemma StepCatchesUp(w: World, step: Step, at: Address, m: Message, d: Device)
    requires Inv(w) && Enabled(w, step) && Handles(w, step.action, at, m)
    requires m.kind == SYNC && DecodeSync(m.data) == Ok(d)
    ensures AtLeast(Do(w, step), at, d.id, d.version)
  {
    var n, g := w.nodes[at], w.air[step.action.index];
    var held := Quarantined(Swept(n), m.id, m.sender);
    assert DatagramOk(w, g);
    ReceiveMeans(n, g.from, g.bytes, m, step.choice);
    if Owns(n, d.id) {
      OwnerIsAhead(w, at, d);
    }
    SyncCatchesUp(held, m, step.choice, d);
    AfterMeans(w, step);
    DoMeans(w, step);
  }

  // Once a sync has been handled the client stays at least as far, for the rest of the run.
  lemma {:induction false} HandledSyncStays(w: World, steps: seq<Step>, at: Address, m: Message, d: Device)
    requires Inv(w) && Run(w, steps) && Affordable(w, steps) && HandledIn(w, steps, at, m)
    requires m.kind == SYNC && DecodeSync(m.data) == Ok(d)
    ensures AtLeast(End(w, steps), at, d.id, d.version)
    decreases |steps|
  {
    var w' := Do(w, steps[0]);
    StepAffordable(w, steps);
    if Handles(w, steps[0].action, at, m) {
      StepCatchesUp(w, steps[0], at, m, d);
      RunNoneOlder(w', steps[1..]);
    } else {
      HandledSyncStays(w', steps[1..], at, m, d);
    }
  }

  // A hail is handled at some point of a run. When the joiner has handled every letter of the
  // salute, then at the end of the run it has every device the replier could read, at the
  // replier's version of back then or later. That includes devices the joiner owns.
  lemma HailCatchUp(w: World, step: Step, rest: seq<Step>, replier: Address, hail: Message, joiner: Address)
    requires Inv(w) && Run(w, [step] + rest) && Affordable(w, [step] + rest)
    requires Enabled(w, step) && Run(Do(w, step), rest)
    requires Handles(w, step.action, replier, hail) && hail.kind == HAIL
    requires forall k :: 0 <= k < |OutcomeOf(w, step).letters| ==>
               HandledIn(Do(w, step), rest, joiner, OutcomeOf(w, step).letters[k].message)
    ensures forall id :: CanRead(w.nodes[replier], id) ==>
              AtLeast(End(Do(w, step), rest), joiner, id, w.nodes[replier].store[id].version)
  {
    assert ([step] + rest)[1..] == rest;
    StepAffordable(w, [step] + rest);
    forall id | CanRead(w.nodes[replier], id)
      ensures AtLeast(End(Do(w, step), rest), joiner, id, w.nodes[replier].store[id].version)
    {
      var k := SaluteCovers(w, step, replier, hail, id);
      assert w.nodes[replier].store[id].id == id;
      HandledSyncStays(Do(w, step), rest, joiner, OutcomeOf(w, step).letters[k].message, w.nodes[replier].store[id]);
    }
  }

  // Eventual consistency: a client that has handled, at any time in a run, a sync of what turns out
  // to be the owner's last version ends the run with the very copy its owner has.
  lemma LastSyncMakesEqual(w: World, steps: seq<Step>, at: Address, m: Message, d: Device, home: Address)
    requires FromScratch(w, steps) && HandledIn(w, steps, at, m)
    requires m.kind == SYNC && DecodeSync(m.data) == Ok(d)
    requires home in End(w, steps).nodes && Owns(End(w, steps).nodes[home], d.id)
    requires End(w, steps).nodes[home].store[d.id].version == d.version
    ensures AtLeast(End(w, steps), at, d.id, d.version)
    ensures End(w, steps).nodes[at].store[d.id] == End(w, steps).nodes[home].store[d.id]
  {
    ScratchAffordable(w, steps);
    RunInv(w, steps);
    HandledSyncStays(w, steps, at, m, d);
    LatestCopyIsOwners(End(w, steps), at, home, d.id);
  }

  lemma LatestCopyIsOwners(v: World, at: Address, home: Address, id: Id)
    requires Inv(v) && at in v.nodes && id in v.nodes[at].store
    requires home in v.nodes && Owns(v.nodes[home], id)
    requires v.nodes[home].store[id].version <= v.nodes[at].store[id].version
    ensures v.nodes[at].store[id] == v.nodes[home].store[id]
  {
    assert CopyOk(v.ledger, v.nodes[at], id);
    assert CopyOk(v.ledger, v.nodes[home], id);
  }
}
