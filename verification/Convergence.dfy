// A store after any number of syncs depends on which copies arrived and not on their order or on
// how often they came.
module Convergence {
  import opened Entity
  import opened Wire
  import opened DeviceStore
  import opened Protocol
  import opened Letters
  import opened Network
  import opened Agreement
  import opened Runs
  import opened CatchUp

  // What a sync of device d does to a client's store.
  function Absorb(host: Id, store: Devices, d: Device): Devices {
    if d.id in store && (store[d.id].owner == host || d.version <= store[d.id].version) then store
    else store[d.id := d]
  }

  lemma SaveDeviceAbsorbs(n: Node, m: Message, c: Choice, d: Device)
    requires DecodeSync(m.data) == Ok(d)
    ensures Settled(SaveDevice(n, m, c)).store == Absorb(n.host, n.store, d)
  {
  }

  function Fold(host: Id, store: Devices, ds: seq<Device>): Devices {
    if ds == [] then store else Absorb(host, Fold(host, store, ds[..|ds| - 1]), ds[|ds| - 1])
  }

  // Copies of one device agree on its owner, and on everything at equal versions; what claims to
  // be one's own is known already.
  ghost predicate Agreeing(host: Id, store: Devices, ds: seq<Device>) {
    && KeyedStore(store)
    && (forall d, e :: d in ds && e in ds ==> Compatible(d, e))
    && (forall d :: d in ds && d.id in store ==> Compatible(d, store[d.id]))
    && (forall d :: d in ds && d.owner == host ==> d.id in store)
  }

  predicate Compatible(d: Device, e: Device) {
    d.id == e.id ==> d.owner == e.owner && (d.version == e.version ==> d == e)
  }

  // One's own devices as they were, and of every other device the newest copy seen.
  ghost predicate IsNewest(host: Id, store: Devices, ds: seq<Device>, r: Devices) {
    && (forall id :: id in r <==> id in store || Mentions(ds, id))
    && (forall id {:trigger IsNewestAt(host, store, ds, id, r[id])} ::
          id in r ==> IsNewestAt(host, store, ds, id, r[id]))
  }

  ghost predicate Mentions(ds: seq<Device>, id: Id) {
    exists d :: d in ds && d.id == id
  }

  ghost predicate IsNewestAt(host: Id, store: Devices, ds: seq<Device>, id: Id, best: Device) {
    && best.id == id
    && (best in ds || (id in store && best == store[id]))
    && (id in store && store[id].owner == host ==> best == store[id])
    && (best.owner != host ==>
          && (id in store ==> store[id].version <= best.version)
          && (forall d :: d in ds && d.id == id ==> d.version <= best.version))
  }

  lemma NewestUniqueAt(
    host: Id, store: Devices, ds: seq<Device>, es: seq<Device>, id: Id, best: Device, best': Device)
    requires Agreeing(host, store, ds) && forall d :: d in ds <==> d in es
    requires IsNewestAt(host, store, ds, id, best) && IsNewestAt(host, store, es, id, best')
    ensures best == best'
  {
  }

  lemma NewestUnique(host: Id, store: Devices, ds: seq<Device>, es: seq<Device>, r: Devices, r': Devices)
    requires Agreeing(host, store, ds) && forall d :: d in ds <==> d in es
    requires IsNewest(host, store, ds, r) && IsNewest(host, store, es, r')
    ensures r == r'
  {
    forall id | id in r && id in r'
      ensures r[id] == r'[id]
    {
      assert IsNewestAt(host, store, ds, id, r[id]);
      assert IsNewestAt(host, store, es, id, r'[id]);
      NewestUniqueAt(host, store, ds, es, id, r[id], r'[id]);
    }
    assert forall id :: id in r <==> id in r';
  }

  lemma AgreeingPart(host: Id, store: Devices, ds: seq<Device>, part: seq<Device>)
    requires Agreeing(host, store, ds) && forall d :: d in part ==> d in ds
    ensures Agreeing(host, store, part)
  {
  }

  lemma StoreIsNewest(host: Id, store: Devices)
    requires KeyedStore(store)
    ensures IsNewest(host, store, [], store)
  {
  }

  lemma {:induction false} FoldIsNewest(host: Id, store: Devices, ds: seq<Device>)
    requires Agreeing(host, store, ds)
    ensures IsNewest(host, store, ds, Fold(host, store, ds))
  {
    if ds == [] {
      StoreIsNewest(host, store);
    } else {
      var k := |ds| - 1;
      var front, d := ds[..k], ds[k];
      assert forall e :: e in ds <==> e in front || e == d;
      AgreeingPart(host, store, ds, front);
      FoldIsNewest(host, store, front);
      AbsorbIsNewest(host, store, front, d, ds, Fold(host, store, front));
    }
  }

  lemma AbsorbIsNewest(host: Id, store: Devices, front: seq<Device>, d: Device, ds: seq<Device>, r: Devices)
    requires Agreeing(host, store, ds) && forall e :: e in ds <==> e in front || e == d
    requires IsNewest(host, store, front, r)
    ensures IsNewest(host, store, ds, Absorb(host, r, d))
  {
    var r' := Absorb(host, r, d);
    forall id | id in r'
      ensures IsNewestAt(host, store, ds, id, r'[id])
    {
      if id in r {
        assert IsNewestAt(host, store, front, id, r[id]);
      }
    }
  }

  // Any permutation or duplication of the same syncs yields the same store.
  lemma OrderIrrelevant(host: Id, store: Devices, ds: seq<Device>, es: seq<Device>)
    requires Agreeing(host, store, ds) && forall d :: d in ds <==> d in es
    ensures Fold(host, store, ds) == Fold(host, store, es)
  {
    FoldIsNewest(host, store, ds);
    FoldIsNewest(host, store, es);
    NewestUnique(host, store, ds, es, Fold(host, store, ds), Fold(host, store, es));
  }

  // Without agreement the order of two foreign copies does matter, namely when they differ at the
  // same version and the store has nothing that old or newer.
  lemma OrderMattersWithoutAgreement(host: Id, store: Devices, d: Device, e: Device)
    requires d.owner != host && e.owner != host
    requires d.id in store ==> store[d.id].owner != host
    ensures Absorb(host, Absorb(host, store, d), e) != Absorb(host, Absorb(host, store, e), d) <==>
            d.id == e.id && d != e && d.version == e.version &&
            (d.id in store ==> store[d.id].version < d.version)
  {
    var de, ed := Absorb(host, Absorb(host, store, d), e), Absorb(host, Absorb(host, store, e), d);
    if d.id == e.id {
      assert d.id in de && d.id in ed;
      assert de[d.id] == ed[d.id] ==> de == ed;
    } else {
      assert de == ed;
    }
  }

  // ---- In the network ----

  lemma ExistingCompatible(v: World, d: Device, e: Device)
    requires Inv(v) && Backed(v.ledger, d) && Backed(v.ledger, e)
    ensures Compatible(d, e)
  {
    assert Entry(v.ledger, d.id, d.version);
    assert Entry(v.ledger, e.id, e.version);
  }

  lemma ExistingAgree(v: World, at: Address, ds: seq<Device>)
    requires Inv(v) && at in v.nodes && forall d :: d in ds ==> Exists(v, d)
    ensures Agreeing(v.nodes[at].host, v.nodes[at].store, ds)
  {
    var n := v.nodes[at];
    forall d | d in ds
      ensures Backed(v.ledger, d)
      ensures d.id in n.store ==> Compatible(d, n.store[d.id])
      ensures d.owner == n.host ==> d.id in n.store
    {
      ExistsBacked(v, d);
      if d.id in n.store {
        assert CopyOk(v.ledger, n, d.id);
        ExistingCompatible(v, d, n.store[d.id]);
      } else {
        CopyIsForeign(v, at, d);
      }
    }
    forall d, e | d in ds && e in ds
      ensures Compatible(d, e)
    {
      ExistingCompatible(v, d, e);
    }
  }

  // Whatever copies are around at some moment, a store that absorbs them all does not depend on
  // their order or number, and gets the newest of each.
  lemma PendingCopiesCommute(w: World, steps: seq<Step>, at: Address, ds: seq<Device>, es: seq<Device>)
    requires FromScratch(w, steps) && at in End(w, steps).nodes
    requires forall d :: d in ds ==> Exists(End(w, steps), d)
    requires forall d :: d in ds <==> d in es
    ensures var n := End(w, steps).nodes[at];
            && Fold(n.host, n.store, ds) == Fold(n.host, n.store, es)
            && IsNewest(n.host, n.store, ds, Fold(n.host, n.store, ds))
  {
    var v := End(w, steps);
    HistoryInv(w, steps);
    ExistingAgree(v, at, ds);
    OrderIrrelevant(v.nodes[at].host, v.nodes[at].store, ds, es);
    FoldIsNewest(v.nodes[at].host, v.nodes[at].store, ds);
  }

  // ---- Over runs ----

  predicate Tells(m: Message, d: Device) {
    m.kind == SYNC && DecodeSync(m.data) == Ok(d)
  }

  // At some step of the run the client handled a sync of this copy.
  ghost predicate Heard(w: World, steps: seq<Step>, at: Address, d: Device)
    requires Run(w, steps)
  {
    exists m :: Tells(m, d) && HandledIn(w, steps, at, m)
  }

  lemma HeardLater(w: World, steps: seq<Step>, at: Address, d: Device)
    requires Run(w, steps) && steps != [] && Heard(Do(w, steps[0]), steps[1..], at, d)
    ensures Heard(w, steps, at, d)
  {
    var m :| Tells(m, d) && HandledIn(Do(w, steps[0]), steps[1..], at, m);
    assert HandledIn(w, steps, at, m);
  }

  // A foreign copy that a step puts into a store came with the sync that the step dispatched.
  lemma StepStoresHeard(w: World, step: Step, at: Address, d: Device)
    requires Inv(w) && Enabled(w, step) && at in w.nodes && StoredAt(Do(w, step), at, d)
    requires d.owner != w.nodes[at].host && !StoredAt(w, at, d)
    ensures exists m :: Tells(m, d) && Handles(w, step.action, at, m)
  {
    if ByNode(step.action) {
      TurnFits(w, step);
      DoMeans(w, step);
      var t := TurnOf(w, step);
      assert t.at == at && t.saved == Some(d);
      assert IsCopy(t.before, d, t.received) by {
        assert IsBump(t.before, d) ==> d.owner == t.before.host;
      }
      assert DatagramOk(w, w.air[step.action.index]);
      assert Handles(w, step.action, at, t.received.value);
    }
  }

  lemma {:induction false} ForeignWasHeard(w: World, steps: seq<Step>, at: Address, d: Device)
    requires Inv(w) && Run(w, steps) && Affordable(w, steps) && at in w.nodes
    requires StoredAt(End(w, steps), at, d) && d.owner != w.nodes[at].host
    ensures StoredAt(w, at, d) || Heard(w, steps, at, d)
    decreases |steps|
  {
    if steps == [] {
    } else {
      var w' := Do(w, steps[0]);
      StepAffordable(w, steps);
      StepKeepsHosts(w, steps[0]);
      ForeignWasHeard(w', steps[1..], at, d);
      if Heard(w', steps[1..], at, d) {
        HeardLater(w, steps, at, d);
      } else if !StoredAt(w, at, d) {
        StepStoresHeard(w, steps[0], at, d);
        var m :| Tells(m, d) && Handles(w, steps[0].action, at, m);
        assert HandledIn(w, steps, at, m);
      }
    }
  }

  // The newest of all copies the client has heard of: there is one, and none is newer.
  ghost predicate NewestHeard(w: World, steps: seq<Step>, at: Address, d: Device)
    requires Run(w, steps)
  {
    && Heard(w, steps, at, d)
    && forall e: Device :: Heard(w, steps, at, e) && e.id == d.id ==> e.version <= d.version
  }

  lemma HeardIsReached(w: World, steps: seq<Step>, at: Address, d: Device)
    requires FromScratch(w, steps) && Heard(w, steps, at, d)
    ensures AtLeast(End(w, steps), at, d.id, d.version)
  {
    ScratchAffordable(w, steps);
    var m :| Tells(m, d) && HandledIn(w, steps, at, m);
    HandledSyncStays(w, steps, at, m, d);
  }

  // What a client holds of a device that is not its own, after any run, is the newest copy among
  // the syncs it has handled, whenever and in whatever order that was, and whatever else it and
  // the others did in between. It holds none if it has handled none.
  lemma StoreIsNewestHeard(w: World, steps: seq<Step>, at: Address, id: Id)
    requires FromScratch(w, steps) && at in End(w, steps).nodes && !Owns(End(w, steps).nodes[at], id)
    ensures var n := End(w, steps).nodes[at];
            && (id in n.store <==> exists d: Device :: d.id == id && Heard(w, steps, at, d))
            && (id in n.store ==> NewestHeard(w, steps, at, n.store[id]))
  {
    var v := End(w, steps);
    HistoryInv(w, steps);
    if id in v.nodes[at].store {
      var d := v.nodes[at].store[id];
      assert d.id == id && StoredAt(v, at, d);
      ScratchAffordable(w, steps);
      RunKeepsHosts(w, steps);
      ForeignWasHeard(w, steps, at, d);
      forall e | Heard(w, steps, at, e) && e.id == id
        ensures e.version <= d.version
      {
        HeardIsReached(w, steps, at, e);
      }
    } else if d: Device :| d.id == id && Heard(w, steps, at, d) {
      HeardIsReached(w, steps, at, d);
    }
  }

  // Two clients that have handled the same copies of a device that neither owns hold the same copy
  // of it at the end of the run, or neither holds one.
  lemma SameHearingSameCopy(w: World, steps: seq<Step>, a: Address, b: Address, id: Id)
    requires FromScratch(w, steps) && a in End(w, steps).nodes && b in End(w, steps).nodes
    requires !Owns(End(w, steps).nodes[a], id) && !Owns(End(w, steps).nodes[b], id)
    requires forall d: Device :: d.id == id ==> (Heard(w, steps, a, d) <==> Heard(w, steps, b, d))
    ensures var s, t := End(w, steps).nodes[a].store, End(w, steps).nodes[b].store;
            (id in s <==> id in t) && (id in s && id in t ==> s[id] == t[id])
  {
    var v := End(w, steps);
    HistoryInv(w, steps);
    StoreIsNewestHeard(w, steps, a, id);
    StoreIsNewestHeard(w, steps, b, id);
    if id in v.nodes[a].store && id in v.nodes[b].store {
      var d, e := v.nodes[a].store[id], v.nodes[b].store[id];
      assert StoredAt(v, a, d) && StoredAt(v, b, e);
      EqualVersionsAgree(w, steps, d, e);
    }
  }
}
