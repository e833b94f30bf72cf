// Safety over whole runs: agreement, owner dominance, monotone versions and patch accounting.
module Runs {
  import opened Entity
  import opened Wire
  import opened Protocol
  import opened Letters
  import opened Network
  import opened Agreement

  // ---- Patch accounting ----

  // The step is a local PATCH at the owner, or dispatches a patch message to the owner, and the
  // owner can read the device.
  predicate IsUpdate(w: World, step: Step, id: Id)
    requires Placed(w, step.action)
  {
    var a := step.action;
    if a.Patch? then a.device == id && Updates(w.nodes[a.at], id)
    else if IsDispatch(w, a) then
      var m := DecodeEnvelope(w.air[a.index].bytes).value;
      && m.kind == PATCH && DecodePatch(m.data).Ok? && DecodePatch(m.data).value.0 == id
      && Updates(w.nodes[w.air[a.index].to], id)
    else false
  }

  predicate Updates(n: Node, id: Id) {
    Owns(n, id) && CanRead(n, id)
  }

  ghost function UpdateCount(w: World, steps: seq<Step>, id: Id): nat
    requires Run(w, steps)
    decreases |steps|
  {
    if steps == [] then 0
    else (if IsUpdate(w, steps[0], id) then 1 else 0) + UpdateCount(Do(w, steps[0]), steps[1..], id)
  }

  // A step and a run from where it leads make one run.
  lemma RunFrom(w: World, s: Step, rest: seq<Step>)
    requires Enabled(w, s) && Run(Do(w, s), rest)
    ensures Run(w, [s] + rest) && End(w, [s] + rest) == End(Do(w, s), rest)
    ensures forall id ::
              UpdateCount(w, [s] + rest, id) ==
              (if IsUpdate(w, s, id) then 1 else 0) + UpdateCount(Do(w, s), rest, id)
  {
    assert ([s] + rest)[1..] == rest;
  }

  lemma RunOfOne(w: World, s: Step)
    requires Enabled(w, s)
    ensures Run(w, [s]) && End(w, [s]) == Do(w, s)
    ensures forall id :: UpdateCount(w, [s], id) == if IsUpdate(w, s, id) then 1 else 0
  {
    assert Run(Do(w, s), []);
    RunFrom(w, s, []);
    assert [s] + [] == [s];
  }

  lemma {:induction false} RunJoins(w: World, first: seq<Step>, rest: seq<Step>)
    requires Run(w, first) && Run(End(w, first), rest)
    ensures Run(w, first + rest) && End(w, first + rest) == End(End(w, first), rest)
    ensures forall id ::
              UpdateCount(w, first + rest, id) == UpdateCount(w, first, id) + UpdateCount(End(w, first), rest, id)
    decreases |first|
  {
    if first == [] {
      assert first + rest == rest;
    } else {
      RunJoins(Do(w, first[0]), first[1..], rest);
      RunFrom(w, first[0], first[1..] + rest);
      assert [first[0]] + (first[1..] + rest) == first + rest;
    }
  }

  // The length of a device's history, or the length it will start with.
  function Length(w: World, id: Id): nat {
    if id in w.ledger then |w.ledger[id]| else 1
  }

  lemma ReceiveUpdates(n: Node, from: Address, bytes: Bytes, m: Message, c: Choice, id: Id)
    requires KeyedStore(n.store) && DecodeEnvelope(bytes) == Ok(m) && Dispatches(n, bytes)
    ensures var o := Receive(n, from, bytes, c);
            m.kind == PATCH && DecodePatch(m.data).Ok? && DecodePatch(m.data).value.0 == id && Updates(n, id)
            <==> o.saved.Some? && o.saved.value.id == id && IsBump(n, o.saved.value)
  {
  }

  lemma UpdateIsBump(w: World, step: Step, id: Id)
    requires Inv(w) && Enabled(w, step) && ByNode(step.action)
    ensures var n, saved := w.nodes[Actor(w, step.action)], OutcomeOf(w, step).saved;
            IsUpdate(w, step, id) <==> saved.Some? && saved.value.id == id && IsBump(n, saved.value)
  {
    var n := w.nodes[Actor(w, step.action)];
    assert step.action.Create? ==> forall d :: d in n.store ==> CopyOk(w.ledger, n, d);
    if step.action.Deliver? {
      var g := w.air[step.action.index];
      assert DatagramOk(w, g);
      if Dispatches(n, g.bytes) {
        ReceiveUpdates(n, g.from, g.bytes, DecodeEnvelope(g.bytes).value, step.choice, id);
      }
    }
  }

  lemma StepCounts(w: World, step: Step, id: Id)
    requires Inv(w) && Enabled(w, step)
    ensures Length(Do(w, step), id) == Length(w, id) + if IsUpdate(w, step, id) then 1 else 0
  {
    if ByNode(step.action) {
      var t := TurnOf(w, step);
      TurnFits(w, step);
      DoMeans(w, step);
      UpdateIsBump(w, step, id);
      TurnCounts(w, t, id);
    }
  }

  lemma TurnCounts(w: World, t: Turn, id: Id)
    requires Inv(w) && Fits(w, t)
    ensures (if id in Grown(w, t) then |Grown(w, t)[id]| else 1) ==
            Length(w, id) + if t.saved.Some? && t.saved.value.id == id && IsBump(t.before, t.saved.value) then 1 else 0
  {
    GrownMeans(w, t);
    if t.saved.Some? && t.saved.value.id == id {
      var d := t.saved.value;
      assert d.id in t.before.store ==> CopyOk(w.ledger, t.before, d.id);
      if IsCopy(t.before, d, t.received) {
        CopyIsForeign(w, t.at, d);
      }
    }
  }

  // ---- The invariant over runs ----

  // No version counter runs out on the way.
  ghost predicate Affordable(w: World, steps: seq<Step>)
    requires Run(w, steps)
  {
    forall id :: Length(w, id) + UpdateCount(w, steps, id) <= TWO_63
  }

  lemma StepAffordable(w: World, steps: seq<Step>)
    requires Inv(w) && Run(w, steps) && steps != [] && Affordable(w, steps)
    ensures Inv(Do(w, steps[0])) && Affordable(Do(w, steps[0]), steps[1..])
  {
    var w' := Do(w, steps[0]);
    forall id
      ensures Length(w', id) + UpdateCount(w', steps[1..], id) == Length(w, id) + UpdateCount(w, steps, id) <= TWO_63
    {
      StepCounts(w, steps[0], id);
    }
    forall id | id in w'.ledger
      ensures |w'.ledger[id]| <= TWO_63
    {
      assert Length(w', id) + UpdateCount(w', steps[1..], id) <= TWO_63;
    }
    StepInv(w, steps[0]);
  }

  lemma {:induction false} RunInv(w: World, steps: seq<Step>)
    requires Inv(w) && Run(w, steps) && Affordable(w, steps)
    ensures Inv(End(w, steps))
    ensures forall id :: Length(End(w, steps), id) == Length(w, id) + UpdateCount(w, steps, id)
    decreases |steps|
  {
    if steps == [] {
    } else {
      StepAffordable(w, steps);
      RunInv(Do(w, steps[0]), steps[1..]);
      forall id
        ensures Length(End(w, steps), id) == Length(w, id) + UpdateCount(w, steps, id)
      {
        StepCounts(w, steps[0], id);
      }
    }
  }

  // Clients stay at their addresses and keep their names.
  ghost predicate SameHosts(w: World, w': World) {
    && w'.nodes.Keys == w.nodes.Keys
    && forall at :: at in w.nodes ==> w'.nodes[at].host == w.nodes[at].host
  }

  lemma StepKeepsHosts(w: World, step: Step)
    requires Inv(w) && Enabled(w, step)
    ensures SameHosts(w, Do(w, step))
  {
    if ByNode(step.action) {
      TurnFits(w, step);
      DoMeans(w, step);
    }
  }

  lemma {:induction false} RunKeepsHosts(w: World, steps: seq<Step>)
    requires Inv(w) && Run(w, steps) && Affordable(w, steps)
    ensures SameHosts(w, End(w, steps))
    decreases |steps|
  {
    if steps == [] {
    } else {
      StepAffordable(w, steps);
      StepKeepsHosts(w, steps[0]);
      RunKeepsHosts(Do(w, steps[0]), steps[1..]);
    }
  }

  // ---- Theorems ----

  // A run from scratch in which no device is updated 2^63 times or more.
  ghost predicate FromScratch(w: World, steps: seq<Step>) {
    && Init(w) && Run(w, steps)
    && forall id :: UpdateCount(w, steps, id) < TWO_63
  }

  lemma ScratchAffordable(w: World, steps: seq<Step>)
    requires FromScratch(w, steps)
    ensures Inv(w) && Affordable(w, steps)
  {
    InitInv(w);
    forall id
      ensures Length(w, id) + UpdateCount(w, steps, id) <= TWO_63
    {
    }
  }

  lemma HistoryInv(w: World, steps: seq<Step>)
    requires FromScratch(w, steps)
    ensures Inv(End(w, steps))
    ensures forall id :: Length(End(w, steps), id) == 1 + UpdateCount(w, steps, id)
  {
    ScratchAffordable(w, steps);
    RunInv(w, steps);
  }

  predicate StoredAt(w: World, at: Address, d: Device) {
    at in w.nodes && d.id in w.nodes[at].store && w.nodes[at].store[d.id] == d
  }

  predicate Carries(g: Datagram, d: Device) {
    && DecodeEnvelope(g.bytes).Ok?
    && DecodeEnvelope(g.bytes).value.kind == SYNC
    && DecodeSync(DecodeEnvelope(g.bytes).value.data) == Ok(d)
  }

  // Somebody has this copy in store, or it is on its way in a sync datagram.
  ghost predicate Exists(w: World, d: Device) {
    (exists at :: StoredAt(w, at, d)) || (exists g :: g in w.air && Carries(g, d))
  }

  lemma ExistsBacked(w: World, d: Device)
    requires Inv(w) && Exists(w, d)
    ensures Backed(w.ledger, d)
  {
    if at :| StoredAt(w, at, d) {
      assert CopyOk(w.ledger, w.nodes[at], d.id);
    } else {
      var g :| g in w.air && Carries(g, d);
      assert DatagramOk(w, g);
    }
  }

  // Equal versions mean equal contents, everywhere, stored or in flight.
  lemma EqualVersionsAgree(w: World, steps: seq<Step>, d: Device, e: Device)
    requires FromScratch(w, steps)
    requires Exists(End(w, steps), d) && Exists(End(w, steps), e)
    requires d.id == e.id && d.version == e.version
    ensures d == e
  {
    HistoryInv(w, steps);
    ExistsBacked(End(w, steps), d);
    ExistsBacked(End(w, steps), e);
  }

  ghost predicate Dominates(v: World, home: Address, d: Device) {
    && Backed(v.ledger, d)
    && home in v.nodes && v.nodes[home].host == d.owner && Owns(v.nodes[home], d.id)
    && d.version <= v.nodes[home].store[d.id].version
    && d.kind == v.nodes[home].store[d.id].kind
    && v.nodes[home].store[d.id] == v.ledger[d.id][|v.ledger[d.id]| - 1]
  }

  lemma HomeOf(v: World, d: Device) returns (home: Address)
    requires Inv(v) && Backed(v.ledger, d)
    ensures Dominates(v, home, d)
  {
    assert Entry(v.ledger, d.id, d.version);
    assert OwnerPresent(v, d.id);
    home :| home in v.nodes && v.nodes[home].host == v.ledger[d.id][0].owner && d.id in v.nodes[home].store;
    assert CopyOk(v.ledger, v.nodes[home], d.id);
    assert Entry(v.ledger, d.id, v.nodes[home].store[d.id].version);
  }

  // What a step adds to a device's history is in the owner's store right after it.
  lemma TurnStoresGain(w: World, t: Turn, home: Address, d: Device)
    requires Inv(w) && Fits(w, t) && Backed(Grown(w, t), d) && !Backed(w.ledger, d)
    requires home in w.nodes && w.nodes[home].host == d.owner
    ensures home == t.at && d.id in t.after.store && t.after.store[d.id] == d
  {
    GrownMeans(w, t);
    assert Gain(t) == Some(d);
  }

  lemma StepStoresGain(w: World, step: Step, home: Address, d: Device)
    requires Inv(w) && Enabled(w, step) && Backed(Do(w, step).ledger, d) && !Backed(w.ledger, d)
    requires home in w.nodes && w.nodes[home].host == d.owner
    ensures StoredAt(Do(w, step), home, d)
  {
    if ByNode(step.action) {
      TurnFits(w, step);
      DoMeans(w, step);
      TurnStoresGain(w, TurnOf(w, step), home, d);
    }
  }

  // The first `k` steps of the run lead to a state in which this client's store holds the copy.
  ghost predicate HeldAfter(w: World, steps: seq<Step>, k: nat, at: Address, d: Device) {
    k <= |steps| && Run(w, steps[..k]) && StoredAt(End(w, steps[..k]), at, d)
  }

  lemma HeldAfterFirst(w: World, steps: seq<Step>, k: nat, at: Address, d: Device)
    requires Run(w, steps) && steps != [] && HeldAfter(Do(w, steps[0]), steps[1..], k, at, d)
    ensures HeldAfter(w, steps, k + 1, at, d)
  {
    assert steps[..k + 1] == [steps[0]] + steps[1..][..k];
    RunFrom(w, steps[0], steps[1..][..k]);
  }

  lemma HeldAtOnce(w: World, steps: seq<Step>, at: Address, d: Device)
    requires Run(w, steps) && steps != [] && StoredAt(Do(w, steps[0]), at, d)
    ensures HeldAfter(w, steps, 1, at, d)
  {
    assert Run(Do(w, steps[0]), []) && steps[..1] == [steps[0]];
    RunOfOne(w, steps[0]);
  }

  lemma {:induction false} BackedWasHeld(w: World, steps: seq<Step>, home: Address, d: Device) returns (k: nat)
    requires Inv(w) && Run(w, steps) && Affordable(w, steps) && Backed(End(w, steps).ledger, d)
    requires home in w.nodes && w.nodes[home].host == d.owner
    ensures Backed(w.ledger, d) || HeldAfter(w, steps, k, home, d)
    decreases |steps|
  {
    if steps == [] {
      k := 0;
    } else {
      var w' := Do(w, steps[0]);
      StepAffordable(w, steps);
      StepKeepsHosts(w, steps[0]);
      var j := BackedWasHeld(w', steps[1..], home, d);
      k := if Backed(w'.ledger, d) then 1 else j + 1;
      if !Backed(w'.ledger, d) {
        HeldAfterFirst(w, steps, j, home, d);
      } else if !Backed(w.ledger, d) {
        StepStoresGain(w, steps[0], home, d);
        HeldAtOnce(w, steps, home, d);
      }
    }
  }

  // For every copy, stored or in flight, there is an owner in the network that has the device,
  // whose own copy is the latest, and whose store held exactly this copy at some moment of the run.
  lemma OwnerDominates(w: World, steps: seq<Step>, d: Device) returns (home: Address, k: nat)
    requires FromScratch(w, steps) && Exists(End(w, steps), d)
    ensures Dominates(End(w, steps), home, d)
    ensures HeldAfter(w, steps, k, home, d)
  {
    HistoryInv(w, steps);
    ExistsBacked(End(w, steps), d);
    home := HomeOf(End(w, steps), d);
    ScratchAffordable(w, steps);
    RunKeepsHosts(w, steps);
    k := BackedWasHeld(w, steps, home, d);
  }

  // An owned device's version is the number of updates it has seen: no update is lost and none
  // is counted twice.
  lemma VersionCountsUpdates(w: World, steps: seq<Step>, at: Address, id: Id)
    requires FromScratch(w, steps)
    requires at in End(w, steps).nodes && Owns(End(w, steps).nodes[at], id)
    ensures End(w, steps).nodes[at].store[id].version == UpdateCount(w, steps, id)
  {
    var v := End(w, steps);
    HistoryInv(w, steps);
    assert Length(v, id) == 1 + UpdateCount(w, steps, id);
    assert CopyOk(v.ledger, v.nodes[at], id);
  }

  // The bound is the version counter's own: at its top the next version is the lowest there is.
  lemma IncrementGrows(v: Int64)
    ensures v < Increment(v) <==> v < MAX_INT
  {
  }

  // Nothing in flight makes a reader fail or panic.
  lemma EveryDatagramReads(w: World, steps: seq<Step>, g: Datagram)
    requires FromScratch(w, steps) && g in End(w, steps).air
    ensures DecodeEnvelope(g.bytes).Ok?
    ensures var m := DecodeEnvelope(g.bytes).value;
            && m.kind in {HAIL, PATCH, SYNC, FAREWELL}
            && (m.kind == PATCH ==> DecodePatch(m.data).Ok?)
            && (m.kind == SYNC ==> DecodeSync(m.data).Ok? && DecodeSync(m.data).value.id != ZERO_ID)
  {
    HistoryInv(w, steps);
    assert DatagramOk(End(w, steps), g);
  }

  // ---- Versions never go back ----

  ghost predicate NoneOlder(w: World, w': World) {
    forall at, id :: at in w.nodes && id in w.nodes[at].store ==>
      && at in w'.nodes && id in w'.nodes[at].store
      && w.nodes[at].store[id].version <= w'.nodes[at].store[id].version
  }

  lemma StepNoneOlder(w: World, step: Step)
    requires Inv(w) && Enabled(w, step) && HasRoom(Do(w, step).ledger)
    ensures NoneOlder(w, Do(w, step))
  {
    if ByNode(step.action) {
      TurnFits(w, step);
      DoMeans(w, step);
      TurnNotOlder(w, TurnOf(w, step));
    }
  }

  lemma TurnNotOlder(w: World, t: Turn)
    requires Inv(w) && Fits(w, t) && HasRoom(Grown(w, t))
    ensures forall id :: id in t.before.store ==>
              id in t.after.store && t.before.store[id].version <= t.after.store[id].version
  {
    GainExtends(w, t);
    forall id | id in t.before.store
      ensures id in t.after.store && t.before.store[id].version <= t.after.store[id].version
    {
      assert CopyOk(w.ledger, t.before, id);
      if t.saved.Some? && t.saved.value.id == id && Gain(t).None? {
        SavedIsCopy(w, t);
      }
    }
  }

  lemma {:induction false} RunNoneOlder(w: World, steps: seq<Step>)
    requires Inv(w) && Run(w, steps) && Affordable(w, steps)
    ensures NoneOlder(w, End(w, steps))
    decreases |steps|
  {
    if steps == [] {
    } else {
      StepAffordable(w, steps);
      StepNoneOlder(w, steps[0]);
      RunNoneOlder(Do(w, steps[0]), steps[1..]);
      NoneOlderTransitive(w, Do(w, steps[0]), End(w, steps));
    }
  }

  lemma NoneOlderTransitive(a: World, b: World, c: World)
    requires NoneOlder(a, b) && NoneOlder(b, c)
    ensures NoneOlder(a, c)
  {
  }
}
