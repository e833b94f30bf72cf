// The other half of the quarantine: a client forgets. A message is dispatched again exactly when
// everything it has to do with it is more than a lifetime ago, so one patch can update a device
// any number of times.
module Redelivery {
  import opened Entity
  import opened Wire
  import opened MessageCache
  import opened Protocol
  import opened Network
  import opened Agreement
  import opened Runs
  import opened Quarantine

  // ---- Every deadline has its reason ----

  ghost predicate Explains(log: seq<Event>, at: Address, m: Id, deadline: int) {
    exists e :: e in log && e.at == at && e.message == m && e.time + TIME_TO_LIVE == deadline
  }

  // Each pair in the cache is there because of an event, one lifetime before its deadline.
  ghost predicate CacheFrom(c: Entries, at: Address, log: seq<Event>) {
    forall m, p :: m in c && p in c[m] ==> Explains(log, at, m, c[m][p])
  }

  ghost predicate CachesFromLog(w: World) {
    forall at :: at in w.nodes ==> CacheFrom(w.nodes[at].cache, at, w.log)
  }

  lemma MoreLogExplains(c: Entries, at: Address, log: seq<Event>, more: seq<Event>)
    requires CacheFrom(c, at, log)
    ensures CacheFrom(c, at, log + more)
  {
    forall m, p | m in c && p in c[m]
      ensures Explains(log + more, at, m, c[m][p])
    {
      var e :| e in log && e.at == at && e.message == m && e.time + TIME_TO_LIVE == c[m][p];
      assert e in log + more;
    }
  }

  lemma SweptFrom(c: Entries, now: int, at: Address, log: seq<Event>)
    requires CacheFrom(c, at, log)
    ensures CacheFrom(Sweep(c, now), at, log)
  {
    forall m, p | m in Sweep(c, now) && p in Sweep(c, now)[m]
      ensures Explains(log, at, m, Sweep(c, now)[m][p])
    {
      SweepMeans(c, m, p, now);
    }
  }

  lemma HeldFrom(c: Entries, m: Id, p: Id, now: int, at: Address, log: seq<Event>, e: Event)
    requires CacheFrom(c, at, log) && e.at == at && e.message == m && e.time == now
    ensures CacheFrom(Held(c, m, p, now), at, log + [e])
  {
    MoreLogExplains(c, at, log, [e]);
    var held := Held(c, m, p, now);
    assert e in log + [e];
    forall m', p' | m' in held && p' in held[m']
      ensures Explains(log + [e], at, m', held[m'][p'])
    {
      if m' in c && p' in c[m'] {
        assert held[m'][p'] == c[m'][p'];
      }
    }
  }

  lemma KeptFrom(n: Node, c: Entries, received: Option<Message>, at: Address, log: seq<Event>)
    requires CacheFrom(n.cache, at, log) && CacheKept(n, c, received)
    ensures received.None? ==> CacheFrom(c, at, log)
    ensures received.Some? ==> CacheFrom(c, at, log + [Dispatched(at, received.value.id, n.now)])
  {
    SweptFrom(n.cache, n.now, at, log);
    if received.Some? {
      var e := Dispatched(at, received.value.id, n.now);
      HeldFrom(Sweep(n.cache, n.now), received.value.id, received.value.sender, n.now, at, log, e);
      SweptFrom(Dispatching(n, received.value), n.now, at, log + [e]);
    }
  }

  lemma {:induction false} PostedFrom(at: Address, s: Node, letters: seq<Letter>, oks: seq<bool>, log: seq<Event>)
    requires |letters| == |oks| && CacheFrom(s.cache, at, log)
    ensures CacheFrom(Posted(s, letters, oks).cache, at, log + Sends(at, s.now, letters, oks))
  {
    if letters == [] {
      assert log + [] == log;
    } else {
      var k := |letters| - 1;
      var before, sent := Posted(s, letters[..k], oks[..k]), log + Sends(at, s.now, letters[..k], oks[..k]);
      PostedFrom(at, s, letters[..k], oks[..k], log);
      PostedKeeps(s, letters[..k], oks[..k]);
      if oks[k] {
        var l := letters[k];
        var e := Sent(at, l.message.id, s.now, l.peer.id);
        HeldFrom(before.cache, l.message.id, l.peer.id, s.now, at, sent, e);
        assert sent + [e] == log + Sends(at, s.now, letters, oks);
      }
    }
  }

  function ArrivalOf(at: Address, received: Option<Message>, now: int): seq<Event> {
    if received.Some? then [Dispatched(at, received.value.id, now)] else []
  }

  lemma TurnFrom(
    at: Address, n: Node, s: Node, received: Option<Message>, letters: seq<Letter>, oks: seq<bool>, log: seq<Event>)
    requires |letters| == |oks| && CacheFrom(n.cache, at, log) && CacheKept(n, s.cache, received)
    requires s.now == n.now || letters == []
    ensures CacheFrom(Posted(s, letters, oks).cache, at,
                      log + (ArrivalOf(at, received, n.now) + Sends(at, n.now, letters, oks)))
  {
    var arrival, sends := ArrivalOf(at, received, n.now), Sends(at, n.now, letters, oks);
    KeptFrom(n, s.cache, received, at, log);
    assert arrival == [] ==> log + arrival == log;
    PostedFrom(at, s, letters, oks, log + arrival);
    assert log + (arrival + sends) == log + arrival + sends;
  }

  lemma ActorFrom(w: World, step: Step)
    requires Inv(w) && CachesFromLog(w) && Enabled(w, step) && ByNode(step.action)
    ensures CacheFrom(After(w, step).cache, Actor(w, step.action), w.log + NewEvents(w, step))
  {
    var at, o, received := Actor(w, step.action), OutcomeOf(w, step), Received(w, step.action);
    if step.action.Deliver? {
      assert DatagramOk(w, w.air[step.action.index]);
    }
    OutcomeCache(w, step);
    NowStays(w, step);
    TurnFrom(at, w.nodes[at], Settled(o), received, o.letters, step.oks, w.log);
    assert Arrival(w, step.action) == ArrivalOf(at, received, w.nodes[at].now);
  }

  lemma ElsewhereFrom(c: Entries, at: Address, log: seq<Event>, other: Address)
    requires CacheFrom(c, at, log) && at != other
    ensures CacheFrom(c, at, Elsewhere(log, other))
  {
    ElsewhereMeans(log, other);
    forall m, p | m in c && p in c[m]
      ensures Explains(Elsewhere(log, other), at, m, c[m][p])
    {
      var e :| e in log && e.at == at && e.message == m && e.time + TIME_TO_LIVE == c[m][p];
      assert e in Elsewhere(log, other);
    }
  }

  lemma StepFromLog(w: World, step: Step)
    requires Inv(w) && CachesFromLog(w) && Enabled(w, step)
    ensures CachesFromLog(Do(w, step))
  {
    if ByNode(step.action) {
      ActorFrom(w, step);
      DoMeans(w, step);
      LogMeans(w, step);
      forall at | at in w.nodes
        ensures CacheFrom(w.nodes[at].cache, at, w.log + NewEvents(w, step))
      {
        MoreLogExplains(w.nodes[at].cache, at, w.log, NewEvents(w, step));
      }
    } else if step.action.Restart? {
      ElsewhereMeans(w.log, step.action.at);
      forall at | at in w.nodes && at != step.action.at
        ensures CacheFrom(w.nodes[at].cache, at, Elsewhere(w.log, step.action.at))
      {
        ElsewhereFrom(w.nodes[at].cache, at, w.log, step.action.at);
      }
    }
  }

  lemma {:induction false} RunFromLog(w: World, steps: seq<Step>)
    requires Inv(w) && CachesFromLog(w) && Run(w, steps) && Affordable(w, steps)
    ensures CachesFromLog(End(w, steps))
    decreases |steps|
  {
    if steps == [] {
    } else {
      StepFromLog(w, steps[0]);
      StepAffordable(w, steps);
      RunFromLog(Do(w, steps[0]), steps[1..]);
    }
  }

  // ---- Dispatched again ----

  // Every dispatch and every send of the message at this client is more than a lifetime ago.
  ghost predicate LongAgo(log: seq<Event>, at: Address, m: Id, now: int) {
    forall e :: e in log && e.at == at && e.message == m ==> e.time + TIME_TO_LIVE < now
  }

  lemma KnownByLog(w: World, at: Address, m: Id)
    requires LogOk(w) && CachesFromLog(w) && at in w.nodes
    ensures Known(w.nodes[at].cache, m, w.nodes[at].now) <==> !LongAgo(w.log, at, m, w.nodes[at].now)
  {
    var n := w.nodes[at];
    KnownMeans(n.cache, m, n.now);
    if Known(n.cache, m, n.now) {
      var p :| p in n.cache[m] && n.now <= n.cache[m][p];
      assert Explains(w.log, at, m, n.cache[m][p]);
    } else {
      forall e | e in w.log && e.at == at && e.message == m
        ensures e.time + TIME_TO_LIVE < n.now
      {
        assert Remembered(w, e);
        if n.now <= e.time + TIME_TO_LIVE {
          KnownEarlier(n.cache, m, e.time + TIME_TO_LIVE, n.now);
        }
      }
    }
  }

  // A datagram is dispatched if and only if the client has neither dispatched nor sent its message
  // within the last lifetime, or has restarted since. Both halves count: no repeat within a lifetime,
  // and no memory beyond it.
  lemma DispatchedAgain(w: World, steps: seq<Step>, i: nat)
    requires FromScratch(w, steps) && Placed(End(w, steps), Deliver(i))
    ensures var v := End(w, steps);
            var g := v.air[i];
            && DecodeEnvelope(g.bytes).Ok?
            && (IsDispatch(v, Deliver(i)) <==>
                forall e :: e in v.log && e.at == g.to && e.message == DecodeEnvelope(g.bytes).value.id ==>
                  e.time + 10_000_000_000 < v.nodes[g.to].now)
  {
    var v := End(w, steps);
    HistoryInv(w, steps);
    ScratchLog(w, steps);
    ScratchAffordable(w, steps);
    RunFromLog(w, steps);
    assert DatagramOk(v, v.air[i]);
    KnownByLog(v, v.air[i].to, DecodeEnvelope(v.air[i].bytes).value.id);
  }

  // ---- One patch, any number of updates ----

  function Times(log: seq<Event>, at: Address, m: Id): nat {
    if log == [] then 0
    else
      var e := log[|log| - 1];
      Times(log[..|log| - 1], at, m) + if e.Dispatched? && e.at == at && e.message == m then 1 else 0
  }

  // A patch is in flight to the owner of its device, who is not holding it in quarantine and who
  // has nobody to tell.
  predicate Due(v: World, home: Address, m: Message, device: Id) {
    && |v.air| == 1 && v.air[0].to == home && DecodeEnvelope(v.air[0].bytes) == Ok(m)
    && m.kind == PATCH && DecodePatch(m.data).Ok? && DecodePatch(m.data).value.0 == device
    && home in v.nodes
    && var n := v.nodes[home];
    && n.peers == map[] && Updates(n, device) && n.store[device].id == device && !Known(n.cache, m.id, n.now)
  }

  lemma OwnerApplies(n: Node, from: Address, bytes: Bytes, m: Message, device: Id, c: Choice)
    requires DecodeEnvelope(bytes) == Ok(m) && !Known(n.cache, m.id, n.now)
    requires m.kind == PATCH && DecodePatch(m.data).Ok? && DecodePatch(m.data).value.0 == device
    requires n.peers == map[] && Updates(n, device) && n.store[device].id == device
    requires c.picked == [] && c.order == [] && |c.ids| == 1
    ensures var o := Receive(n, from, bytes, c);
            && Allowed(o, c) && o.letters == []
            && Settled(o) == n.(cache := Dispatching(n, m),
                                store := n.store[device := Bumped(n.store[device], DecodePatch(m.data).value.1)])
  {
    ReceiveMeans(n, from, bytes, m, c);
  }

  // The network repeats the only datagram in flight.
  lemma Repeating(v: World) returns (run: seq<Step>, v': World)
    requires |v.air| == 1
    ensures Run(v, run) && End(v, run) == v' && forall id :: UpdateCount(v, run, id) == 0
    ensures forall s :: s in run ==> !s.action.Patch?
    ensures v' == v.(air := v.air + v.air)
  {
    var s := Step(Duplicate(0), Choice([], [], []), []);
    run, v' := [s], Do(v, s);
    RunOfOne(v, s);
  }

  lemma Waiting(v: World, at: Address, time: int) returns (run: seq<Step>, v': World)
    requires at in v.nodes && v.nodes[at].now <= time
    ensures Run(v, run) && End(v, run) == v' && forall id :: UpdateCount(v, run, id) == 0
    ensures forall s :: s in run ==> !s.action.Patch?
    ensures v'.nodes == v.nodes[at := v.nodes[at].(now := time)]
    ensures v'.air == v.air && v'.used == v.used && v'.log == v.log
  {
    var s := Step(Tick(at, time), Choice([], [], []), []);
    run, v' := [s], Do(v, s);
    RunOfOne(v, s);
  }

  lemma Applying(v: World, home: Address, m: Message, device: Id, id: Id) returns (run: seq<Step>, v': World)
    requires |v.air| == 2 && v.air[0] == v.air[1] && Due(v.(air := v.air[1..]), home, m, device) && id !in v.used
    ensures Run(v, run) && End(v, run) == v' && forall x :: UpdateCount(v, run, x) <= 1
    ensures forall s :: s in run ==> !s.action.Patch?
    ensures var n := v.nodes[home];
            v'.nodes == v.nodes[home := n.(
              cache := Dispatching(n, m),
              store := n.store[device := Bumped(n.store[device], DecodePatch(m.data).value.1)])]
    ensures v'.air == v.air[1..] && v'.used == v.used + {id}
    ensures v'.log == v.log + [Dispatched(home, m.id, v.nodes[home].now)]
  {
    var g, n, c := v.air[0], v.nodes[home], Choice([], [], [id]);
    var s := Step(Deliver(0), c, []);
    ReceiveMeans(n, g.from, g.bytes, m, c);
    OwnerApplies(n, g.from, g.bytes, m, device, c);
    assert IdSet([id]) == {id};
    run, v' := [s], Do(v, s);
    RunOfOne(v, s);
  }

  lemma StillDue(v: World, v': World, home: Address, m: Message, device: Id)
    requires Due(v, home, m, device) && v'.air == v.air && home in v'.nodes
    requires var n := v.nodes[home];
             v'.nodes[home] == n.(
               now := n.now + TIME_TO_LIVE + 1,
               cache := Dispatching(n, m),
               store := n.store[device := Bumped(n.store[device], DecodePatch(m.data).value.1)])
    ensures Due(v', home, m, device)
    ensures v'.nodes[home].store[device].version == Increment(v.nodes[home].store[device].version)
  {
    var now := v.nodes[home].now;
    AskThenHold(v.nodes[home].cache, m.id, m.sender, now, now, now + TIME_TO_LIVE + 1);
  }

  // The network repeats the patch, the owner applies it, and the owner's clock moves on.
  lemma DueAgain(v: World, home: Address, m: Message, device: Id, id: Id) returns (round: seq<Step>)
    requires Due(v, home, m, device) && id !in v.used
    ensures Run(v, round) && (forall x :: UpdateCount(v, round, x) <= 1)
    ensures forall s :: s in round ==> !s.action.Patch?
    ensures var v' := End(v, round);
            && Due(v', home, m, device) && v'.used == v.used + {id}
            && v'.nodes[home].store[device].version == Increment(v.nodes[home].store[device].version)
            && v'.log == v.log + [Dispatched(home, m.id, v.nodes[home].now)]
  {
    var a, v1 := Repeating(v);
    var b, v2 := Applying(v1, home, m, device, id);
    var c, v3 := Waiting(v2, home, v.nodes[home].now + TIME_TO_LIVE + 1);
    StillDue(v, v3, home, m, device);
    RunJoins(v, a, b);
    RunJoins(v, a + b, c);
    round := a + b + c;
  }

  lemma {:induction false} DueManyTimes(v: World, home: Address, m: Message, device: Id, ids: seq<Id>)
    returns (steps: seq<Step>)
    requires Due(v, home, m, device) && FreshIds(v, ids)
    requires v.nodes[home].store[device].version + |ids| <= MAX_INT
    ensures Run(v, steps) && forall s :: s in steps ==> !s.action.Patch?
    ensures forall x :: UpdateCount(v, steps, x) <= |ids|
    ensures var v' := End(v, steps);
            && Due(v', home, m, device)
            && v'.nodes[home].store[device].version == v.nodes[home].store[device].version + |ids|
            && Times(v'.log, home, m.id) == Times(v.log, home, m.id) + |ids|
    decreases |ids|
  {
    if ids == [] {
      steps := [];
    } else {
      var round := DueAgain(v, home, m, device, ids[0]);
      assert End(v, round).log[..|v.log|] == v.log;
      var rest := DueManyTimes(End(v, round), home, m, device, ids[1..]);
      RunJoins(v, round, rest);
      steps := round + rest;
    }
  }

  // An owner without peers and a client that knows the owner, both with nothing stored.
  predicate Acquainted(w: World, home: Address, away: Address) {
    && home in w.nodes && away in w.nodes && home != away
    && w.air == [] && w.log == [] && w.nodes[home].peers == map[]
    && w.nodes[home].store == w.nodes[away].store == map[] && w.nodes[home].cache == w.nodes[away].cache == map[]
    && w.nodes[away].peers == map[w.nodes[home].host := Peer(w.nodes[home].host, home)]
  }

  lemma Creating(w: World, home: Address, device: Id, kind: Byte) returns (run: seq<Step>, v: World)
    requires home in w.nodes && w.nodes[home].store == map[] && device !in w.used
    ensures Run(w, run) && End(w, run) == v && forall id :: UpdateCount(w, run, id) == 0
    ensures |run| == 1 && !run[0].action.Patch?
    ensures v.air == w.air && v.log == w.log && v.used == w.used + {device}
    ensures v.nodes == w.nodes[home := w.nodes[home].(
                                 store := map[device := Device(device, w.nodes[home].host, kind, 0, 0)])]
  {
    var s := Step(Create(home, kind, 0), Choice([], [], [device]), []);
    run, v := [s], Do(w, s);
    RunOfOne(w, s);
    assert IdSet([device]) == {device};
  }

  lemma AskingPick(n: Node, peer: Peer)
    requires n.peers == map[peer.id := peer] && n.cache == map[]
    ensures Selecting(n) == n && ValidPick(n, ZERO_ID, MIN_INT, [peer])
  {
    assert SafePeers(n, ZERO_ID) == {peer.id};
  }

  lemma Asking(v: World, home: Address, away: Address, device: Id, state: Byte, mid: Id)
    returns (run: seq<Step>, v': World, m: Message)
    requires home in v.nodes && away in v.nodes && home != away && v.air == [] && v.log == [] && mid !in v.used
    requires v.nodes[away].cache == map[] && v.nodes[away].store == map[]
    requires v.nodes[away].peers == map[v.nodes[home].host := Peer(v.nodes[home].host, home)]
    ensures Run(v, run) && End(v, run) == v' && forall id :: UpdateCount(v, run, id) == 0
    ensures |run| == 1 && run[0].action == Patch(away, device, state)
    ensures m.id == mid && m.kind == PATCH && DecodePatch(m.data) == Ok((device, state))
    ensures |v'.air| == 1 && v'.air[0].to == home && DecodeEnvelope(v'.air[0].bytes) == Ok(m)
    ensures v'.used == v.used + {mid}
    ensures v'.nodes.Keys == v.nodes.Keys && v'.nodes[home] == v.nodes[home]
    ensures Times(v'.log, home, mid) == 0
  {
    var n, peer := v.nodes[away], Peer(v.nodes[home].host, home);
    AskingPick(n, peer);
    var s := Step(Patch(away, device, state), Choice([peer], [], [mid]), [true]);
    m := PatchMessage(mid, n.host, device, state);
    assert OutcomeOf(v, s).letters == [Letter(peer, m)];
    OneLetter(away, n, Letter(peer, m), true);
    EnvelopeDecodes(m);
    PatchDecodes(device, state);
    assert IdSet([mid]) == {mid};
    run, v' := [s], Do(v, s);
    RunOfOne(v, s);
    assert v'.log[..0] == [];
  }

  lemma FirstDue(v: World, home: Address, m: Message, device: Id, kind: Byte, state: Byte)
    requires |v.air| == 1 && v.air[0].to == home && DecodeEnvelope(v.air[0].bytes) == Ok(m)
    requires m.kind == PATCH && DecodePatch(m.data) == Ok((device, state)) && kind != KIND_UNKNOWN
    requires home in v.nodes && v.nodes[home].peers == map[] && v.nodes[home].cache == map[]
    requires v.nodes[home].store == map[device := Device(device, v.nodes[home].host, kind, 0, 0)]
    ensures Due(v, home, m, device)
  {
  }

  lemma Prelude(w: World, home: Address, away: Address, device: Id, kind: Byte, state: Byte, mid: Id)
    returns (start: seq<Step>, m: Message)
    requires Acquainted(w, home, away) && kind != KIND_UNKNOWN
    requires device != mid && device !in w.used && mid !in w.used
    ensures Run(w, start) && |start| == 2 && forall id :: UpdateCount(w, start, id) == 0
    ensures !start[0].action.Patch? && start[1].action == Patch(away, device, state)
    ensures var v := End(w, start);
            && Due(v, home, m, device) && m.id == mid && v.nodes[home].store[device].version == 0
            && v.used == w.used + {device} + {mid} && Times(v.log, home, mid) == 0
  {
    var a, v1 := Creating(w, home, device, kind);
    var b, v2;
    b, v2, m := Asking(v1, home, away, device, state, mid);
    FirstDue(v2, home, m, device, kind, state);
    RunJoins(w, a, b);
    start := a + b;
  }

  lemma FreshParts(w: World, device: Id, mid: Id, ids: seq<Id>)
    requires FreshIds(w, [device, mid] + ids)
    ensures device != mid && device !in w.used && mid !in w.used
    ensures FreshIds(w.(used := w.used + {device} + {mid}), ids)
  {
    var all := [device, mid] + ids;
    assert all[0] == device && all[1] == mid;
    assert forall i :: 0 <= i < |ids| ==> ids[i] == all[i + 2];
  }

  // From scratch: the owner creates a device, another client asks once for a change of state, and
  // that one request is dispatched and applied as often as one likes.
  lemma OnePatchManyUpdates(
    w: World, home: Address, away: Address, device: Id, kind: Byte, state: Byte, mid: Id, ids: seq<Id>)
    returns (steps: seq<Step>)
    requires Init(w) && Acquainted(w, home, away) && kind != KIND_UNKNOWN
    requires FreshIds(w, [device, mid] + ids) && |ids| < TWO_63
    ensures FromScratch(w, steps)
    ensures forall i :: 0 <= i < |steps| && steps[i].action.Patch? ==>
              i == 1 && steps[i].action == Patch(away, device, state)
    ensures home in End(w, steps).nodes && Owns(End(w, steps).nodes[home], device)
    ensures Times(End(w, steps).log, home, mid) == |ids|
    ensures End(w, steps).nodes[home].store[device].version == |ids|
  {
    FreshParts(w, device, mid, ids);
    var start, m := Prelude(w, home, away, device, kind, state, mid);
    var rest := DueManyTimes(End(w, start), home, m, device, ids);
    RunJoins(w, start, rest);
    steps := start + rest;
  }
}
